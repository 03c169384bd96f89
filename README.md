# Mapty workout log, modelled in Dafny

Mapty is a browser app that keeps a log of running and cycling workouts on a map. The user
clicks the map and fills in a form. The app then creates a `Running` or `Cycling` object.
That object gets an id taken from the clock, a click counter, a pace (running) or a speed
(cycling), and a description such as "Running on October 18.". The app appends the object
to its collection and writes the collection to local storage as JSON. A click on a list
entry finds the workout with that id and counts the click. On start-up the stored
collection replaces the empty one.

The model is made of five modules:

- `Common` holds `Option` (JavaScript `undefined` is `None`) and `Result`.
- `Numbers` models a JavaScript number as an extended real: finite, `Infinity`,
  `-Infinity` or `NaN`. It gives division with IEEE behaviour for zero and infinite
  operands, and the magnitude the form validation applies to the elevation gain.
- `Decimal` gives the decimal text of a timestamp, the value of a digit string and
  `slice(-k)`. It proves the round trip from a number to its digits and back.
- `Workouts` holds the `Workout` class. `kind` says whether an object is a running or a
  cycling workout. Properties set once in the constructor are `const`. Those the helper
  methods assign, plus `clicks`, are `var`. `Valid()` says that the derived properties
  agree with the inputs, and `Click` keeps it. Beside the class sit the pure definitions it
  is proved against: `MakeId`, `Pace`, `Speed`, `Describe`, `NewRunning` and `NewCycling`.
- `Manager` models the bookkeeping part of `App` as the `Tracker` class. `workouts` is a
  sequence of entries. Each entry is either a workout object or a plain object restored
  by `JSON.parse`. `mapEvent` is the last map click. Each method is proved against a pure
  function over the collection's data (`seq<Item>`):
  - `NewWorkout` against `SubmitAsWritten`;
  - `MoveToPopup` against `SelectOutcome` and `SelectAsWritten`;
  - the constructor and `GetLocalStorage` against `Restore`.

  `Submit` and `RestoreTyped` stand beside these as the evidently intended behaviour, and
  the lemmas compare the two.

The `Tracker` methods follow the code as written, including its slips:

- the duration is read from the distance input;
- an alert does not stop the submission;
- `find` has no not-found check;
- restored plain objects have no `click`.

The Findings table lists all four slips.

## Model

| member | source | states |
|---|---|---|
| Numbers.Div | script.js:41 | JavaScript `/` on numbers: a finite non-zero divisor gives the real quotient; a zero divisor gives ±Infinity or NaN by the sign of the dividend; NaN in gives NaN; a finite number over an infinity gives 0; an infinity over a finite number keeps or flips its sign; infinity over infinity is NaN. Its properties are the `Div…` lemmas |
| Workouts.MakeId | script.js:13 | `(Date.now() + "").slice(-10)`: the last ten characters of the decimal timestamp; its properties are `IdShape`, `IdValue` and `IdsDistinct` |
| Workouts.Pace | script.js:41 | `duration / distance`; see `PaceOfValidInput` |
| Workouts.Speed | script.js:55 | `distance / (duration / 60)`; see `SpeedOfValidInput` and `PaceSpeedReciprocal` |
| Workouts.Describe | script.js:22-25 | the capitalised type name, " on ", the month name from the twelve-name table, a space, the day of the month and a full stop; see `DescribeInjective` and `DescribeExample` |
| Workouts.NewRunning | script.js:11-20 | the data of a new running workout (id, 0 clicks, coords, duration, distance, cadence, pace, description); `CreateRunning` is proved to produce it |
| Workouts.NewCycling | script.js:45-52 | the data of a new cycling workout (id, 0 clicks, coords, duration, distance, elevation gain, speed, description); `CreateCycling` is proved to produce it |
| Workouts.Workout.ToRecord | script.js:266 | the data of a workout object, as `JSON.stringify` keeps it |
| Manager.CheckData | script.js:133-143 | no alert exactly when distance, duration and the checked value are all finite and above zero; see `CheckDataExactly` |
| Manager.SubmitAsWritten | script.js:122-172 | `_new_Workout` as written: nothing without a map click, otherwise the workout built with the duration read from the distance input is appended, with or without the alert; see `SubmitAppendsOne`, `InvalidInputStillRecorded` and `Tracker.NewWorkout` |
| Manager.SelectOutcome | script.js:246-263 | the result of a list click: ignored without a `.workout` ancestor, not found when `find` returns undefined, no `click` method for a plain object, otherwise a click on the first element with the id; see `SelectClicksFirstMatch` and `Tracker.MoveToPopup` |
| Manager.SelectAsWritten | script.js:246-263 | the collection after a list click: the clicked workout gains one click, in every other case nothing changes; see `SelectOnlyCounts` |
| Manager.SelectOutcomeChecked | script.js:246-253 | the click handler with a not-found guard; see `CheckedSelectionIgnoresMissingId` |
| Manager.Persist | script.js:265-267 | the stored collection: the data of every element, in order; see `PersistRestoreRoundTrip` |
| Manager.Restore | script.js:269-272 | the restored collection: every stored record as a plain object; see `PersistRestoreRoundTrip` and `RestoredSelectionThrows` |
| Manager.Submit | script.js:133-159 | the evidently intended submission: validate first, with the typed duration, and refuse invalid input or a missing map click; see `SubmitRejectsInvalid` and `SubmitAccepts` |
| Manager.RestoreTyped | script.js:269-272 | the evidently intended restore: every stored record becomes a workout object again; see `RestoreTypedRoundTrip` and `RestoredTypedSelectionClicks` |
| Numbers.Magnitude | script.js:154 | `elevgain < 0 ? elevgain * -1 : elevgain` is never negative; it is finite exactly when the input is; it is positive exactly when the input is non-zero and not NaN; for a finite input it is the absolute value |
| Numbers.DivInverse | script.js:41 | a quotient with a finite non-zero divisor is finite, and multiplied back by the divisor gives the dividend |
| Numbers.DivPositive | script.js:41 | the quotient of two finite positive numbers is finite and positive |
| Numbers.DivByZeroNotFinite | script.js:41 | dividing by a zero distance never yields a finite pace |
| Decimal.DigitChar | script.js:13 | the digit character written for d < 10 is a digit whose value is d |
| Decimal.DecimalShape | script.js:13 | `n + ""` for a natural n is a non-empty digit string with no leading zero, one character long exactly when n < 10 |
| Decimal.DecimalRoundTrip | script.js:13 | reading back the digits of `n + ""` gives n |
| Decimal.DecimalInjective | script.js:13 | different numbers give different decimal strings |
| Decimal.DigitsValueBound | script.js:13 | a digit string of length k denotes a number below 10^k |
| Decimal.DigitsValueConcat | script.js:13 | the value of a concatenation of digit strings is the value of the prefix shifted by the suffix's length, plus the value of the suffix |
| Decimal.SliceLast | script.js:13 | `s.slice(-k)` for k ≥ 1 (the id uses k = 10) has length min(k, \|s\|) |
| Decimal.SliceLastSuffix | script.js:13 | `s.slice(-k)` for k ≥ 1 is a suffix of s |
| Workouts.IdShape | script.js:13 | an id is a string of at most ten digits that ends the decimal timestamp |
| Workouts.IdValue | script.js:13 | an id spells the timestamp modulo 10^10 |
| Workouts.IdsDistinct | script.js:13 | two workouts created less than 10^10 ms apart get different ids |
| Workouts.DescribeInjective | script.js:21-26 | the description determines the workout type, the month and the day |
| Workouts.DescribeExample | script.js:21-26 | a running workout created on 18 October is described as "Running on October 18." |
| Workouts.PaceOfValidInput | script.js:39-43 | for a finite positive duration and distance the pace is duration / distance, and positive |
| Workouts.SpeedOfValidInput | script.js:53-57 | for a finite positive distance and duration the speed is distance / (duration / 60), that is 60 · distance / duration, and positive |
| Workouts.PaceSpeedReciprocal | script.js:39-57 | the pace (min/km) times the speed (km/h) of the same input is 60 |
| Workouts.Workout.CreateRunning | script.js:11-20 | a new running object is consistent, and its data are id = last ten digits of the time, clicks 0, the given coords, duration and distance, the cadence, pace = duration / distance, no elevgain or speed, and the description |
| Workouts.Workout.CreateCycling | script.js:45-52 | a new cycling object is consistent, and its data are the shared fields, the elevation gain as typed, speed = distance / (duration / 60), no cadence or pace, and the description |
| Workouts.Workout.CalPace | script.js:39-43 | stores duration / distance as the pace and returns the `speed` property, which a running workout does not have |
| Workouts.Workout.CalElegain | script.js:53-57 | stores distance / (duration / 60) as the speed and returns it |
| Workouts.Workout.SetDescription | script.js:21-26 | the description becomes "<Type> on <Month> <day>." for the object's kind and date |
| Workouts.Workout.Click | script.js:27-29 | the click count grows by one; every other property stays as it was, and consistency is kept |
| Manager.CheckDataExactly | script.js:133-143 | the alert is raised exactly when one of distance, duration and the checked value is not finite or not above zero; without an alert all three are finite and positive |
| Manager.SubmitAppendsOne | script.js:122-172 | a submission after a map click appends one new workout object with 0 clicks, the form's kind, the clicked position, the id of the current time and its description, and keeps all earlier entries |
| Manager.InvalidInputStillRecorded | script.js:142-159 | an input that raises the alert is still appended |
| Manager.RecordedDurationIsDistance | script.js:127-128 | every recorded workout has its duration equal to its distance |
| Manager.AsWrittenDerivedFieldsConstant | script.js:127-128 | so every accepted running workout has pace 1 min/km and every accepted cycling workout 60 km/h, whatever duration was typed |
| Manager.AsWrittenRunningScenario | script.js:127-148 | 5 km run in 30 min at cadence 160: no alert, one workout, pace 1 rather than 6 |
| Manager.NegativeElevationAccepted | script.js:152-155 | a cycling entry with a negative elevation gain passes the check through its magnitude |
| Manager.ZeroDistanceRecordsNaN | script.js:133-159 | a zero distance raises the alert, yet the workout is recorded with pace or speed NaN |
| Manager.SubmitRejectsInvalid | script.js:133-159 | the corrected submission fails with invalid input exactly when the check's condition holds; otherwise it appends one workout whose pace or speed comes from the typed duration |
| Manager.SubmitAccepts | script.js:144-159 | on input that passes the check and a chosen location, the corrected submission keeps the earlier entries and appends one workout object with the typed duration and distance, 0 clicks, the chosen position, the form's kind, the id of the current time, the cadence and pace duration / distance (running) or the raw elevation gain and speed 60 · distance / duration (cycling) |
| Manager.IntendedRunningScenario | script.js:144-149 | 5 km run in 30 min: the corrected submission records pace 6 min/km |
| Manager.IntendedCyclingScenario | script.js:151-156 | 20 km ride in 60 min with elevation -150: accepted, speed 20 km/h |
| Manager.FindById | script.js:250-252 | `find` by id returns the first entry holding the id, or nothing when no entry does |
| Manager.OutsideClickChangesNothing | script.js:247-248 | a click outside every list entry returns at once and changes nothing |
| Manager.SelectClicksFirstMatch | script.js:246-263 | a click on an entry whose id first occurs at a workout object adds one click to that object; every other entry and the id order are unchanged |
| Manager.SelectOnlyCounts | script.js:246-263 | whatever is clicked, the collection keeps its length and ids, and at most the clicked workout changes, by one click |
| Manager.MissingIdThrows | script.js:250-253 | an id not in the collection makes `find` return undefined, and reading its coords throws |
| Manager.CheckedSelectionIgnoresMissingId | script.js:246-253 | with a guard after `find`, a click never throws for a missing id: it is ignored exactly when there is no target or no element holds the id, and otherwise acts as the unguarded handler |
| Manager.PersistRestoreRoundTrip | script.js:265-272 | writing and reading back storage keeps every record, the ids and their order; the workout objects come back as plain objects |
| Manager.RestoredSelectionThrows | script.js:272 | after a reload a click on any entry throws, since plain objects have no `click` |
| Manager.RestoreTypedRoundTrip | script.js:265-272 | restoring with the workout kind re-attached gives back the same collection of workout objects |
| Manager.RestoredTypedSelectionClicks | script.js:272 | with typed restoring, a click after a reload counts on the first workout with that id |
| Manager.AppendEntry | script.js:159 | pushing a new, consistent workout object keeps the collection consistent and free of duplicates, and appends that object's data |
| Manager.IdsOfItems | script.js:250-252 | the ids `find` compares are the ids of the entries, in order |
| Manager.ClickEntry | script.js:262 | `workout.click()` on entry i keeps the collection consistent; entry i gains one click and no other entry changes |
| Manager.BuildWorkout | script.js:126-156 | builds the new workout object from the form with the duration taken from the distance input, and reports whether the check passed |
| Manager.Tracker.constructor | script.js:66-74 | a new app starts with an empty collection, replaced by the stored one when storage holds one; it holds no workout objects |
| Manager.Tracker.ShowForm | script.js:110-116 | remembers the clicked map position |
| Manager.Tracker.Add | script.js:159 | appends the new object's data to the collection, adds that object and no other to the collection's objects, and keeps it consistent |
| Manager.Tracker.NewWorkout | script.js:122-172 | changes the collection exactly as `SubmitAsWritten` says: nothing without a map click, otherwise the new workout is appended, alert or not; the stored JSON is the data of the whole new collection; any workout object it adds is new |
| Manager.Tracker.MoveToPopup | script.js:246-263 | leaves the entries in place and changes the data exactly as `SelectAsWritten` says, with the outcome given by `SelectOutcome` (ignored, clicked, not found, no `click` method) |
| Manager.Tracker.GetLocalStorage | script.js:269-277 | nothing stored leaves the collection as it was; otherwise the collection becomes the stored records as plain objects, with no workout objects left |
| Manager.SubmitThenSelect | script.js:68-263 | a session (start with nothing stored, click the map, submit, click the new list entry) selects entry 0, which then has one click |

## Left out

- The map (Leaflet), geolocation, markers, popups, `setView` and the HTML list are not
  modelled. `_render_workout_marker`, `_render_workout_onlist`, `_hide_form`,
  `_toggle_elevation_field`, `_load_map` and `_get_position` only touch those.
- `reset` clears storage and reloads the page, so it is browser I/O and is not modelled.
- The clock and the calendar are parameters. `now` is `Date.now()` in milliseconds, and
  `date` holds `getMonth()` and `getDate()` of `new Date()`.
- Reading the form inputs with `+input.value` is not modelled. The form arrives as numbers.
- Workouts.MakeId: writes every timestamp in plain decimal. JavaScript switches to
  exponent notation at 10^21, which is far beyond any real clock value.
- Numbers.Div: has no signed zero. A zero divisor counts as +0, and rounding of finite
  quotients is exact real division.
- Manager.Persist: keeps each record as it is. `JSON.stringify` turns NaN and the
  infinities into `null` and the `Date` into a string, and the restored records would
  carry those instead.
- Manager.Tracker.GetLocalStorage: receives storage already parsed. Malformed JSON makes
  `JSON.parse` throw, and that case is not modelled.
- Manager.Tracker.MoveToPopup: stops at the two exceptions, a missing id and a missing
  `click`, without modelling the throw itself. The `setView` call before `click()`, which
  also throws when the map never loaded, is not modelled.
- Workouts.Workout.ToRecord: reads an absent pace, speed, cadence or elevation gain as NaN
  and an absent description as "". A consistent object has none absent.
- The model does not capture how the browser runs event handlers one after another.

## Findings

| source | as written | input that shows it | evidently intended | confidence | as-written member | corrected member |
|---|---|---|---|---|---|---|
| script.js:127-128 | `duration` is read from the distance input | running, distance 5, duration 30, cadence 160: pace is 1 min/km | duration read from `inputDuration`, pace 6 min/km | not executed | Manager.AsWrittenRunningScenario | Manager.IntendedRunningScenario |
| script.js:142-159 | `check_data` only raises an alert; the workout is built and pushed anyway | distance 0: alert, then a workout with pace NaN is stored | stop the submission when the check fails | not executed | Manager.InvalidInputStillRecorded | Manager.SubmitRejectsInvalid |
| script.js:250-253 | `find` has no not-found check before `workout.coords` | a click on an entry whose id is not in the collection throws a TypeError | ignore the click, as for a click outside the list | not executed | Manager.MissingIdThrows | Manager.CheckedSelectionIgnoresMissingId |
| script.js:272 | storage is restored as plain objects, which have no `click` | any click on a list entry after a reload throws a TypeError | rebuild `Running`/`Cycling` objects from the stored data | not executed | Manager.RestoredSelectionThrows | Manager.RestoredTypedSelectionClicks |
