# Workout generator: a Dafny model

A model of the single-screen workout generator in `src/App.js`. A user picks a
duration (5, 10 or 15 minutes) and a category (strength, flexibility, cardio,
gym). The view then shows `ceil(duration / 2)` exercises, each drawn at random,
with replacement, from that category's fixed catalog list. Clicking an entry
opens a detail overlay and Close shuts it. A connectivity flag follows the
browser's online/offline events.

- `wrappers.dfy` — `Option`, for `null` and absent record fields.
- `catalog.dfy` — module `Catalog`: the `EXERCISES` table as constants, and
  `Lookup`, which is `EXERCISES[category]`.
- `selection.dfy` — module `Selection`: `Math.ceil(duration / 2)` (`Count`),
  `Math.floor(Math.random() * len)` (`PickIndex`), and the `generateWorkout`
  loop (`GenerateWorkout`). The loop is a method proved against the
  specification function `Draws`, which maps a sequence of random draws to the
  workout they pick.
- `view_state.dfy` — module `ViewState`: the five `useState` fields as the
  class `WorkoutView`. Each user action and the connectivity handler is a
  method. Each method states the new value of every field. The invariant
  `Valid()` holds the length and membership facts about the workout.

Randomness is a parameter. Every operation that regenerates the workout takes
`draws`: the values `Math.random()` returns during that call, in order, each
in [0, 1). A seeded generator is one particular choice of those values.

Pressing the button of the duration or category already selected does not
regenerate: React skips a state update to the value a field already holds, so
the `[duration, category]` effect does not run again and the workout stays as
it is. `SetDuration` and `SetCategory` model that.

## Model

| member | source | states |
|---|---|---|
| Catalog.Lookup | src/App.js:10-103 | a key is found exactly when it is one of the four category keys; every list found is non-empty, so an index can always be drawn |
| Catalog.CatalogShape | src/App.js:10-103 | the key list is exactly the table's keys; every list is non-empty with names unique inside it; gym exercises name their equipment and no other exercise needs any |
| Selection.Count | src/App.js:148 | `Math.ceil(duration / 2)` characterised for every integer: the least n with duration <= 2n |
| Selection.Passes | src/App.js:148-151 | how many times the `for` loop runs: `ceil(duration / 2)` for a positive duration, zero for a duration of zero or less |
| Selection.OfferedCounts | src/App.js:183 | durations 5, 10 and 15 give 3, 5 and 8 exercises; every offered duration gives at least one |
| Selection.PickIndex | src/App.js:153 | `Math.floor(r * len)` with r in [0, 1) and a non-empty list is an index below len, and it is the floor of r * len |
| Selection.PickIndexInterval | src/App.js:153 | index i is picked exactly when r is in [i/len, (i+1)/len), in both directions; each index gets an equal share of [0, 1), so the pick is uniform |
| Selection.Draws | src/App.js:150-155 | the loop's result as a function of the random values: one pick per draw, appended in draw order; it has exactly one entry per draw and every entry belongs to the list drawn from |
| Selection.DrawsAt | src/App.js:150-155 | entry k of a workout is the exercise that draw k picks, so entries appear in draw order |
| Selection.DrawsAppend | src/App.js:150-155 | the workout of draws a then b is the workout of a followed by that of b; later draws never reorder earlier entries |
| Selection.DrawsCover | src/App.js:150-155 | every sequence over the list, repeats and any order included, is the workout of some draws: selection is with replacement, with no distinctness check |
| Selection.GenerateWorkout | src/App.js:146-157 | `generateWorkout`: the result has exactly `Passes(duration)` entries (`ceil(duration / 2)` when positive), all from the category's list, and equals the workout of the first that many draws |
| Selection.CardioOnly | src/App.js:45-58 | a cardio workout holds only Jumping Jacks and High Knees |
| ViewState.WorkoutView.constructor | src/App.js:106-110 | mounting gives duration 5, category strength, no selected exercise and online status; the mount effect fills the workout with 3 strength exercises; `Valid()` holds |
| ViewState.WorkoutView.Reshuffle | src/App.js:227 | the reshuffle button replaces only the workout, with a new one from the current duration and category; an open overlay keeps its exercise; `Valid()` is preserved |
| ViewState.WorkoutView.SetDuration | src/App.js:183-186 | a duration button sets the duration; the workout is regenerated for the new duration if it changed and kept if not; category, selection and offline flag are unchanged |
| ViewState.WorkoutView.SetCategory | src/App.js:206-209 | a category button sets the category to a catalog key; the workout is regenerated from the new category if it changed and kept if not; duration, selection and offline flag are unchanged |
| ViewState.WorkoutView.SelectExercise | src/App.js:234-238 | clicking a workout entry selects exactly that record; duration, category, workout and offline flag are unchanged |
| ViewState.WorkoutView.CloseDetail | src/App.js:267-269 | Close clears the selection; duration, category, workout and offline flag are unchanged |
| ViewState.WorkoutView.HandleOnlineStatus | src/App.js:133-135 | a connectivity event sets only `isOffline`, to the negation of `navigator.onLine` |
| ViewState.CardioAfterMount | src/App.js:160-162 | after mounting and pressing "cardio", the workout has 3 entries, each Jumping Jacks or High Knees |

`WorkoutView.Valid()` is the invariant that every method keeps. The duration
is an offered value and the category is a catalog key. The workout has
`Count(duration)` entries, all from the current category's list. A selected
exercise is one that was once placed in the workout: the ghost set `placed`
starts as the entries of the first workout, grows by the entries of every
regenerated workout, and is left alone by the other methods.

## Left out

- Service-worker registration and its `load` listener (src/App.js:113-130): browser I/O whose outcome is only logged.
- Adding and removing the `online`/`offline` listeners (src/App.js:137-143): event plumbing; only the handler's effect is modelled, with the value of `navigator.onLine` as a parameter.
- Rendering, styling, icons and the `<video>` element (src/App.js:164-277): presentation only.
- React scheduling: a setter and the effect run after it are one synchronous step. The render between mount and the first effect run, which shows an empty workout, is not modelled.
- Selection.PickIndex: draws are exact reals in [0, 1), not IEEE doubles. Floating-point rounding of `Math.random() * len` is not modelled.
- Selection.GenerateWorkout: requires a category that is a catalog key. With a key that is not one of the four, which no caller passes, the source either throws a `TypeError` in the loop or pushes `undefined` entries. The only callers pass keys of `EXERCISES`.
- ViewState.WorkoutView.SelectExercise: requires the record to be an entry of the current workout, because the only call site is the click handler of a rendered entry. Object identity is modelled as value equality.
