/**
 * The bookkeeping half of `App`: the ordered collection of workouts, what a form
 * submission adds to it, what a click on the list does to it, and how it is written
 * to and read back from storage. The map, the DOM and the browser storage itself
 * are not modelled; storage is a sequence of records passed in and out.
 */
module Manager {
  import opened Common
  import opened Numbers
  import opened Decimal
  import opened Workouts

  /** The form fields, already converted to numbers with `+input.value`. */
  datatype Form = Form(kind: WorkoutType, distance: Num, duration: Num, cadence: Num, elevation: Num)

  /** `check_data(temp)`: true when every value is finite and positive, i.e. when no alert is raised. */
  predicate CheckData(distance: Num, duration: Num, temp: Num)
  {
    var values := [distance, duration, temp];
    (forall v :: v in values ==> IsFinite(v)) && (forall v :: v in values ==> IsPositive(v))
  }

  /** The alert is raised exactly when one of the three values is non-finite or not above zero. */
  lemma CheckDataExactly(distance: Num, duration: Num, temp: Num)
    ensures !CheckData(distance, duration, temp) <==>
              !IsFinite(distance) || !IsPositive(distance) ||
              !IsFinite(duration) || !IsPositive(duration) ||
              !IsFinite(temp) || !IsPositive(temp)
    ensures CheckData(distance, duration, temp) ==>
              distance.Fin? && distance.r > 0.0 && duration.Fin? && duration.r > 0.0 &&
              temp.Fin? && temp.r > 0.0
  {
    var values := [distance, duration, temp];
    assert distance in values && duration in values && temp in values;
  }

  /** The fourth value `check_data` sees: the cadence, or the magnitude of the elevation gain. */
  function CheckedValue(form: Form): Num
  {
    match form.kind
    case Running => form.cadence
    case Cycling => Magnitude(form.elevation)
  }

  /** The duration `_new_Workout` uses: it reads the distance input a second time. */
  function FormDuration(form: Form): Num
  {
    form.distance
  }

  /** The workout `_new_Workout` builds from the form, placed at `at`. */
  function FormRecord(form: Form, at: LatLng, now: nat, date: Date): Record
    requires ValidDate(date)
  {
    match form.kind
    case Running => NewRunning(now, date, at, FormDuration(form), form.distance, form.cadence)
    case Cycling => NewCycling(now, date, at, FormDuration(form), form.distance, form.elevation)
  }

  /** An element of the collection: a workout object, or a plain object restored from storage. */
  datatype Item = Typed(rec: Record) | Untyped(rec: Record)

  /** What a submission does: it stops on a missing map click, or records (maybe after an alert). */
  datatype Submission = NoMapEvent | Submitted(alerted: bool)

  /** `_new_Workout` as written, on the collection `items` and the last map click `mapEvent`. */
  function SubmitAsWritten(items: seq<Item>, form: Form, mapEvent: Option<LatLng>, now: nat, date: Date): (Submission, seq<Item>)
    requires ValidDate(date)
  {
    match mapEvent
    case None => (NoMapEvent, items)
    case Some(at) =>
      (Submitted(!CheckData(form.distance, FormDuration(form), CheckedValue(form))),
       items + [Typed(FormRecord(form, at, now, date))])
  }

  /** Every submission after a map click appends one new workout and keeps the earlier ones. */
  lemma SubmitAppendsOne(items: seq<Item>, form: Form, at: LatLng, now: nat, date: Date)
    requires ValidDate(date)
    ensures var (outcome, after) := SubmitAsWritten(items, form, Some(at), now, date);
      outcome.Submitted? && |after| == |items| + 1 && after[..|items|] == items &&
      after[|items|].Typed? && after[|items|].rec.clicks == 0 &&
      after[|items|].rec.kind == form.kind && after[|items|].rec.coords == at &&
      after[|items|].rec.id == MakeId(now) && after[|items|].rec.description == Describe(form.kind, date)
  {
  }

  /** The alert does not stop the submission: invalid input is recorded too. */
  lemma InvalidInputStillRecorded(items: seq<Item>, form: Form, at: LatLng, now: nat, date: Date)
    requires ValidDate(date)
    requires !CheckData(form.distance, form.distance, CheckedValue(form))
    ensures SubmitAsWritten(items, form, Some(at), now, date).0 == Submitted(true)
    ensures |SubmitAsWritten(items, form, Some(at), now, date).1| == |items| + 1
  {
  }

  /** Every workout recorded from the form has its duration equal to its distance. */
  lemma RecordedDurationIsDistance(form: Form, at: LatLng, now: nat, date: Date)
    requires ValidDate(date)
    ensures FormRecord(form, at, now, date).duration == FormRecord(form, at, now, date).distance == form.distance
  {
  }

  /**
   * Hence every accepted running workout has pace 1 min/km and every accepted cycling
   * workout 60 km/h, whatever duration was typed.
   */
  lemma AsWrittenDerivedFieldsConstant(form: Form, at: LatLng, now: nat, date: Date)
    requires ValidDate(date)
    requires CheckData(form.distance, FormDuration(form), CheckedValue(form))
    ensures form.kind == Running ==> FormRecord(form, at, now, date).detail.pace == Fin(1.0)
    ensures form.kind == Cycling ==> FormRecord(form, at, now, date).detail.speed == Fin(60.0)
  {
    var d := form.distance;
    CheckDataExactly(d, d, CheckedValue(form));
    PaceOfValidInput(d, d);
    SpeedOfValidInput(d, d);
    assert d.r / d.r == 1.0;
    assert d.r / (d.r / 60.0) == 60.0;
  }

  /** Running, 5 km in 30 min at cadence 160: recorded without alert, but with pace 1, not 6. */
  lemma AsWrittenRunningScenario(now: nat, date: Date)
    requires ValidDate(date)
    ensures var form := Form(Running, Fin(5.0), Fin(30.0), Fin(160.0), Fin(0.0));
      var (outcome, after) := SubmitAsWritten([], form, Some(LatLng(51.5, -0.1)), now, date);
      outcome == Submitted(false) && |after| == 1 &&
      after[0].rec.detail.pace == Fin(1.0) && after[0].rec.detail.pace != Fin(6.0)
  {
    var form := Form(Running, Fin(5.0), Fin(30.0), Fin(160.0), Fin(0.0));
    CheckDataExactly(form.distance, form.distance, form.cadence);
  }

  /** A negative elevation gain passes the check through its magnitude. */
  lemma NegativeElevationAccepted(distance: real, elevation: real, at: LatLng, now: nat, date: Date)
    requires ValidDate(date)
    requires distance > 0.0 && elevation < 0.0
    ensures var form := Form(Cycling, Fin(distance), Fin(distance), Fin(0.0), Fin(elevation));
      SubmitAsWritten([], form, Some(at), now, date).0 == Submitted(false)
  {
    var form := Form(Cycling, Fin(distance), Fin(distance), Fin(0.0), Fin(elevation));
    CheckDataExactly(form.distance, form.distance, CheckedValue(form));
  }

  /** A zero distance raises the alert, and the recorded pace or speed is NaN (0 / 0). */
  lemma ZeroDistanceRecordsNaN(form: Form, at: LatLng, now: nat, date: Date)
    requires ValidDate(date) && form.distance == Fin(0.0)
    ensures SubmitAsWritten([], form, Some(at), now, date).0 == Submitted(true)
    ensures form.kind == Running ==> FormRecord(form, at, now, date).detail.pace == NaN
    ensures form.kind == Cycling ==> FormRecord(form, at, now, date).detail.speed == NaN
  {
    CheckDataExactly(form.distance, form.distance, CheckedValue(form));
  }

  /** Why a submission is refused, when it is validated before anything is built. */
  datatype SubmitError = InvalidInput | NoLocationSelected

  /** The workout the form evidently means: the duration comes from the duration input. */
  function IntendedRecord(form: Form, at: LatLng, now: nat, date: Date): Record
    requires ValidDate(date)
  {
    match form.kind
    case Running => NewRunning(now, date, at, form.duration, form.distance, form.cadence)
    case Cycling => NewCycling(now, date, at, form.duration, form.distance, form.elevation)
  }

  /** A submission that reads the duration input and stops at an alert. */
  function Submit(items: seq<Item>, form: Form, pending: Option<LatLng>, now: nat, date: Date): Result<seq<Item>, SubmitError>
    requires ValidDate(date)
  {
    if !CheckData(form.distance, form.duration, CheckedValue(form)) then Failure(InvalidInput)
    else if pending.None? then Failure(NoLocationSelected)
    else Success(items + [Typed(IntendedRecord(form, pending.value, now, date))])
  }

  /**
   * The corrected submission refuses exactly the input the check rejects, and otherwise
   * appends one workout whose pace or speed comes from the typed duration.
   */
  lemma SubmitRejectsInvalid(items: seq<Item>, form: Form, pending: Option<LatLng>, now: nat, date: Date)
    requires ValidDate(date)
    ensures Submit(items, form, pending, now, date) == Failure(InvalidInput) <==>
              !IsFinite(form.distance) || !IsPositive(form.distance) ||
              !IsFinite(form.duration) || !IsPositive(form.duration) ||
              !IsFinite(CheckedValue(form)) || !IsPositive(CheckedValue(form))
    ensures Submit(items, form, pending, now, date).Success? ==>
              var after := Submit(items, form, pending, now, date).value;
              |after| == |items| + 1 && after[..|items|] == items &&
              (form.kind == Running ==> after[|items|].rec.detail.pace == Fin(form.duration.r / form.distance.r)) &&
              (form.kind == Cycling ==> after[|items|].rec.detail.speed == Fin(form.distance.r / (form.duration.r / 60.0)))
  {
    CheckDataExactly(form.distance, form.duration, CheckedValue(form));
    if CheckData(form.distance, form.duration, CheckedValue(form)) {
      PaceOfValidInput(form.duration, form.distance);
      SpeedOfValidInput(form.distance, form.duration);
    }
  }

  /**
   * On input that passes the check, with a location chosen, the corrected submission appends
   * one new workout built from the typed values: duration from the duration input, 0 clicks,
   * and the pace or speed those values give.
   */
  lemma SubmitAccepts(items: seq<Item>, form: Form, at: LatLng, now: nat, date: Date)
    requires ValidDate(date) && CheckData(form.distance, form.duration, CheckedValue(form))
    ensures var r := Submit(items, form, Some(at), now, date);
      r.Success? && |r.value| == |items| + 1 && r.value[..|items|] == items && r.value[|items|].Typed?
    ensures var rec := Submit(items, form, Some(at), now, date).value[|items|].rec;
      rec.duration == form.duration && rec.distance == form.distance && rec.clicks == 0 &&
      rec.coords == at && rec.kind == form.kind && rec.id == MakeId(now) &&
      form.distance.Fin? && form.distance.r > 0.0 && form.duration.Fin? && form.duration.r > 0.0 &&
      (form.kind == Running ==>
         rec.detail == RunningDetail(form.cadence, Fin(form.duration.r / form.distance.r))) &&
      (form.kind == Cycling ==>
         rec.detail == CyclingDetail(form.elevation, Fin(60.0 * form.distance.r / form.duration.r)))
  {
    CheckDataExactly(form.distance, form.duration, CheckedValue(form));
    PaceOfValidInput(form.duration, form.distance);
    SpeedOfValidInput(form.distance, form.duration);
  }

  /** Running, 5 km in 30 min at cadence 160: pace 6 min/km. */
  lemma IntendedRunningScenario(items: seq<Item>, now: nat, date: Date)
    requires ValidDate(date)
    ensures var form := Form(Running, Fin(5.0), Fin(30.0), Fin(160.0), Fin(0.0));
      var r := Submit(items, form, Some(LatLng(51.5, -0.1)), now, date);
      r.Success? && |r.value| == |items| + 1 && r.value[|items|].rec.detail.pace == Fin(6.0)
  {
    var form := Form(Running, Fin(5.0), Fin(30.0), Fin(160.0), Fin(0.0));
    assert CheckData(form.distance, form.duration, CheckedValue(form)) by {
      CheckDataExactly(form.distance, form.duration, CheckedValue(form));
    }
    SubmitAccepts(items, form, LatLng(51.5, -0.1), now, date);
    assert 30.0 / 5.0 == 6.0;
  }

  /** Cycling, 20 km in 60 min with elevation -150: accepted, speed 20 km/h. */
  lemma IntendedCyclingScenario(items: seq<Item>, now: nat, date: Date)
    requires ValidDate(date)
    ensures var form := Form(Cycling, Fin(20.0), Fin(60.0), Fin(0.0), Fin(-150.0));
      var r := Submit(items, form, Some(LatLng(51.5, -0.1)), now, date);
      r.Success? && |r.value| == |items| + 1 && r.value[|items|].rec.detail.speed == Fin(20.0)
  {
    var form := Form(Cycling, Fin(20.0), Fin(60.0), Fin(0.0), Fin(-150.0));
    assert CheckData(form.distance, form.duration, CheckedValue(form)) by {
      assert CheckedValue(form) == Fin(150.0);
      CheckDataExactly(form.distance, form.duration, CheckedValue(form));
    }
    SubmitAccepts(items, form, LatLng(51.5, -0.1), now, date);
    assert 60.0 * 20.0 / 60.0 == 20.0;
  }

  function ItemIds(items: seq<Item>): seq<string>
  {
    seq(|items|, k requires 0 <= k < |items| => items[k].rec.id)
  }

  /** `find` on the ids: the first index holding `id`, if any. */
  function FindById(ids: seq<string>, id: string): (r: Option<nat>)
    ensures r.Some? ==> r.value < |ids| && ids[r.value] == id &&
                        forall j :: 0 <= j < r.value ==> ids[j] != id
    ensures r.None? ==> forall j :: 0 <= j < |ids| ==> ids[j] != id
  {
    if ids == [] then None
    else if ids[0] == id then Some(0)
    else match FindById(ids[1..], id)
      case None => None
      case Some(k) => Some(k + 1)
  }

  /** What a click on the list does: nothing, a click, or a TypeError (no workout / no `click`). */
  datatype Selection = Ignored | Clicked(index: nat) | NotFound | NoClickMethod

  /** `_move_to_popup` on a click whose `.workout` ancestor carries `target` (None: no such ancestor). */
  function SelectOutcome(items: seq<Item>, target: Option<string>): Selection
  {
    match target
    case None => Ignored
    case Some(id) =>
      match FindById(ItemIds(items), id)
      case None => NotFound
      case Some(i) => if items[i].Typed? then Clicked(i) else NoClickMethod
  }

  function Bump(rec: Record): Record
  {
    rec.(clicks := rec.clicks + 1)
  }

  /** The collection after `_move_to_popup`. */
  function SelectAsWritten(items: seq<Item>, target: Option<string>): seq<Item>
  {
    match SelectOutcome(items, target)
    case Clicked(i) => items[i := Typed(Bump(items[i].rec))]
    case _ => items
  }

  /** A click outside any list entry changes nothing. */
  lemma OutsideClickChangesNothing(items: seq<Item>)
    ensures SelectOutcome(items, None) == Ignored && SelectAsWritten(items, None) == items
  {
  }

  /**
   * A click on the entry of `id` bumps the clicks of the first workout with that id, when it is
   * a workout object; every other element, and the order of the ids, stay as they were.
   */
  lemma SelectClicksFirstMatch(items: seq<Item>, id: string, i: nat)
    requires i < |items| && items[i].rec.id == id && items[i].Typed?
    requires forall j :: 0 <= j < i ==> items[j].rec.id != id
    ensures SelectOutcome(items, Some(id)) == Clicked(i)
    ensures var after := SelectAsWritten(items, Some(id));
      |after| == |items| && after[i] == Typed(items[i].rec.(clicks := items[i].rec.clicks + 1)) &&
      (forall k :: 0 <= k < |items| && k != i ==> after[k] == items[k]) &&
      ItemIds(after) == ItemIds(items)
  {
    var found := FindById(ItemIds(items), id);
    assert ItemIds(items)[i] == id;
    assert found == Some(i);
  }

  /** Whatever is clicked, the collection keeps its length and id order; at most the clicked workout changes, by one click. */
  lemma SelectOnlyCounts(items: seq<Item>, target: Option<string>)
    ensures var after := SelectAsWritten(items, target);
      |after| == |items| && ItemIds(after) == ItemIds(items) &&
      forall k :: 0 <= k < |items| ==>
        after[k] == items[k] ||
        (SelectOutcome(items, target) == Clicked(k) && after[k] == Typed(Bump(items[k].rec)))
  {
    var after := SelectAsWritten(items, target);
    match SelectOutcome(items, target)
    case Clicked(i) =>
      assert |after| == |items|;
      forall k | 0 <= k < |items| ensures ItemIds(after)[k] == ItemIds(items)[k] {
      }
    case _ =>
  }

  /** An id that is not in the collection makes `find` return undefined, and the click throws. */
  lemma MissingIdThrows(items: seq<Item>, id: string)
    requires forall k :: 0 <= k < |items| ==> items[k].rec.id != id
    ensures SelectOutcome(items, Some(id)) == NotFound && SelectAsWritten(items, Some(id)) == items
  {
  }

  /** `_move_to_popup` with a guard after `find`: an id no element holds is ignored, like a click outside the list. */
  function SelectOutcomeChecked(items: seq<Item>, target: Option<string>): Selection
  {
    match SelectOutcome(items, target)
    case NotFound => Ignored
    case other => other
  }

  /**
   * With the guard, a click never throws for a missing id: it is ignored exactly when there is no
   * target or no element holds the id, and otherwise behaves as the unguarded handler.
   */
  lemma CheckedSelectionIgnoresMissingId(items: seq<Item>, target: Option<string>)
    ensures SelectOutcomeChecked(items, target) != NotFound
    ensures SelectOutcomeChecked(items, target) == Ignored <==>
              target.None? || forall k :: 0 <= k < |items| ==> items[k].rec.id != target.value
    ensures SelectOutcomeChecked(items, target) != Ignored ==>
              SelectOutcomeChecked(items, target) == SelectOutcome(items, target)
  {
    if target.Some? {
      var ids := ItemIds(items);
      if FindById(ids, target.value).None? {
        forall k | 0 <= k < |items| ensures items[k].rec.id != target.value {
          assert ids[k] == items[k].rec.id;
        }
      }
    }
  }

  /** `JSON.stringify(this.#workout)`: the data of every element, in order. */
  function Persist(items: seq<Item>): seq<Record>
  {
    seq(|items|, k requires 0 <= k < |items| => items[k].rec)
  }

  /** `JSON.parse` of the stored collection: plain objects, which lose `click`. */
  function Restore(records: seq<Record>): seq<Item>
  {
    seq(|records|, k requires 0 <= k < |records| => Untyped(records[k]))
  }

  /**
   * Storing and restoring keeps every record, so the same length, the same ids in the same
   * order and the same numbers; only the workout objects become plain objects.
   */
  lemma PersistRestoreRoundTrip(items: seq<Item>)
    ensures Persist(Restore(Persist(items))) == Persist(items)
    ensures ItemIds(Restore(Persist(items))) == ItemIds(items)
    ensures forall k :: 0 <= k < |items| ==> Restore(Persist(items))[k] == Untyped(items[k].rec)
  {
  }

  /** After a reload, a click on any entry throws: the restored workouts have no `click` method. */
  lemma RestoredSelectionThrows(records: seq<Record>, id: string, i: nat)
    requires i < |records| && records[i].id == id
    ensures SelectOutcome(Restore(records), Some(id)) == NoClickMethod
    ensures SelectAsWritten(Restore(records), Some(id)) == Restore(records)
  {
    var items := Restore(records);
    assert ItemIds(items)[i] == id;
  }

  /** Restoring that re-attaches the workout kind: every record becomes a workout object again. */
  function RestoreTyped(records: seq<Record>): seq<Item>
  {
    seq(|records|, k requires 0 <= k < |records| => Typed(records[k]))
  }

  /** With typed restoring, storing and restoring gives back the same collection of workout objects. */
  lemma RestoreTypedRoundTrip(items: seq<Item>)
    requires forall k :: 0 <= k < |items| ==> items[k].Typed?
    ensures RestoreTyped(Persist(items)) == items
  {
  }

  /** With typed restoring, a click after a reload counts on the first workout with that id. */
  lemma RestoredTypedSelectionClicks(records: seq<Record>, id: string, i: nat)
    requires i < |records| && records[i].id == id
    requires forall j :: 0 <= j < i ==> records[j].id != id
    ensures SelectOutcome(RestoreTyped(records), Some(id)) == Clicked(i)
    ensures SelectAsWritten(RestoreTyped(records), Some(id))[i].rec.clicks == records[i].clicks + 1
  {
    SelectClicksFirstMatch(RestoreTyped(records), id, i);
  }

  /** An element of `#workout`: a workout object, or a plain object from `JSON.parse`. */
  datatype Entry = Instance(w: Workout) | Plain(rec: Record)
  {
    function Id(): string
    {
      match this
      case Instance(w) => w.id
      case Plain(r) => r.id
    }
  }

  function EntryIds(entries: seq<Entry>): seq<string>
  {
    seq(|entries|, k requires 0 <= k < |entries| => entries[k].Id())
  }

  /** The data of one element, as it would be stored. */
  function ItemOf(e: Entry): Item
    reads if e.Instance? then {e.w} else {}
  {
    match e
    case Instance(w) => Typed(w.ToRecord())
    case Plain(r) => Untyped(r)
  }

  ghost function EntryObjects(entries: seq<Entry>): set<Workout>
  {
    set k | 0 <= k < |entries| && entries[k].Instance? :: entries[k].w
  }

  ghost predicate EntriesValid(entries: seq<Entry>)
    reads EntryObjects(entries)
  {
    forall k :: 0 <= k < |entries| && entries[k].Instance? ==> entries[k].w.Valid()
  }

  /** No workout object appears twice. */
  predicate Distinct(entries: seq<Entry>)
  {
    forall j, k :: 0 <= j < k < |entries| && entries[j].Instance? && entries[k].Instance? ==>
      entries[j].w != entries[k].w
  }

  /** The collection as data, element by element. */
  function ItemsOf(entries: seq<Entry>): (r: seq<Item>)
    reads EntryObjects(entries)
    ensures |r| == |entries|
    ensures forall k :: 0 <= k < |entries| ==> r[k] == ItemOf(entries[k])
  {
    if entries == [] then []
    else
      var init := entries[..|entries| - 1];
      assert EntryObjects(init) <= EntryObjects(entries) by {
        forall o | o in EntryObjects(init) ensures o in EntryObjects(entries) {
          var k :| 0 <= k < |init| && init[k].Instance? && init[k].w == o;
          assert entries[k] == init[k];
        }
      }
      ItemsOf(init) + [ItemOf(entries[|entries| - 1])]
  }

  /** Appending a fresh, consistent workout object keeps the collection valid and appends its data. */
  lemma AppendEntry(entries: seq<Entry>, w: Workout)
    requires EntriesValid(entries) && Distinct(entries) && w.Valid()
    requires w !in EntryObjects(entries)
    ensures EntriesValid(entries + [Instance(w)]) && Distinct(entries + [Instance(w)])
    ensures ItemsOf(entries + [Instance(w)]) == ItemsOf(entries) + [Typed(w.ToRecord())]
  {
    var after := entries + [Instance(w)];
    assert after[..|entries|] == entries;
    forall k | 0 <= k < |entries| && entries[k].Instance?
      ensures entries[k].w != w
    {
      assert entries[k].w in EntryObjects(entries);
    }
  }

  /** A collection whose entries all show their old data except entry `i`, which shows `x`. */
  lemma ReplacedItem(entries: seq<Entry>, before: seq<Item>, i: nat, x: Item)
    requires i < |entries| == |before|
    requires forall k :: 0 <= k < |entries| && k != i ==> ItemOf(entries[k]) == before[k]
    requires ItemOf(entries[i]) == x
    ensures ItemsOf(entries) == before[i := x]
  {
  }

  /** The ids shown for a collection are the ids of its entries. */
  lemma IdsOfItems(entries: seq<Entry>)
    ensures ItemIds(ItemsOf(entries)) == EntryIds(entries)
  {
  }

  /** `workout.click()` on entry `i` of a collection: that entry gains a click, no other changes. */
  method ClickEntry(entries: seq<Entry>, i: nat)
    requires i < |entries| && entries[i].Instance?
    requires EntriesValid(entries) && Distinct(entries)
    modifies entries[i].w
    ensures EntriesValid(entries)
    ensures ItemsOf(entries) == old(ItemsOf(entries))[i := Typed(Bump(old(entries[i].w.ToRecord())))]
  {
    ghost var before := ItemsOf(entries);
    var w := entries[i].w;
    assert forall k :: 0 <= k < |entries| && k != i && entries[k].Instance? ==> entries[k].w != w;
    w.Click();
    assert forall k :: 0 <= k < |entries| && k != i ==> ItemOf(entries[k]) == before[k];
    ReplacedItem(entries, before, i, Typed(Bump(before[i].rec)));
  }

  /** The branch of `_new_Workout` that validates the input and builds the workout object. */
  method BuildWorkout(form: Form, coords: LatLng, now: nat, date: Date) returns (workout: Workout, valid: bool)
    requires ValidDate(date)
    ensures fresh(workout) && workout.Valid()
    ensures workout.ToRecord() == FormRecord(form, coords, now, date)
    ensures valid == CheckData(form.distance, FormDuration(form), CheckedValue(form))
  {
    var distance := form.distance;
    var duration := form.distance;
    if form.kind == Running {
      valid := CheckData(distance, duration, form.cadence);
      workout := new Workout.CreateRunning(now, date, coords, duration, distance, form.cadence);
    } else {
      var elevgain := form.elevation;
      valid := CheckData(distance, duration, Magnitude(elevgain));
      workout := new Workout.CreateCycling(now, date, coords, duration, distance, elevgain);
    }
  }

  /** `App` without its map: the workout collection and the last map click. */
  class Tracker {
    var workouts: seq<Entry>
    var mapEvent: Option<LatLng>

    ghost function Objects(): set<Workout>
      reads this
    {
      EntryObjects(workouts)
    }

    /** Every workout object is consistent and appears only once in the collection. */
    ghost predicate Valid()
      reads this, Objects()
    {
      EntriesValid(workouts) && Distinct(workouts)
    }

    /** The collection as data. */
    function Items(): seq<Item>
      reads this, Objects()
    {
      ItemsOf(workouts)
    }

    /** `new App()` without the map: an empty collection, then `_get_Local_storage`. */
    constructor (stored: Option<seq<Record>>)
      ensures Valid() && mapEvent == None && Objects() == {}
      ensures Items() == if stored.Some? then Restore(stored.value) else []
    {
      workouts := [];
      mapEvent := None;
      new;
      GetLocalStorage(stored);
    }

    /** The data part of `_show_form`: remember the clicked map position. */
    method ShowForm(at: LatLng)
      modifies this`mapEvent
      ensures mapEvent == Some(at)
    {
      mapEvent := Some(at);
    }

    /** `this.#workouts.push(workout)` */
    method Add(workout: Workout)
      requires Valid() && workout.Valid() && workout !in Objects()
      modifies this`workouts
      ensures Valid() && Objects() == old(Objects()) + {workout}
      ensures Items() == old(Items()) + [Typed(workout.ToRecord())]
    {
      AppendEntry(workouts, workout);
      workouts := workouts + [Instance(workout)];
    }

    /** `_new_Workout` at time `now` on `date`; `stored` is what `_set_local_storage` writes. */
    method NewWorkout(form: Form, now: nat, date: Date) returns (outcome: Submission, stored: Option<seq<Record>>)
      requires Valid() && ValidDate(date)
      modifies this`workouts
      ensures Valid() && mapEvent == old(mapEvent) && fresh(Objects() - old(Objects()))
      ensures (outcome, Items()) == SubmitAsWritten(old(Items()), form, old(mapEvent), now, date)
      ensures stored == if outcome.Submitted? then Some(Persist(Items())) else None
    {
      if mapEvent.None? {
        return NoMapEvent, None;
      }
      var coords := mapEvent.value;
      var workout, valid := BuildWorkout(form, coords, now, date);
      Add(workout);
      outcome := Submitted(!valid);
      stored := Some(Persist(Items()));
    }

    /** `_move_to_popup`: `target` is the `data-id` of the clicked `.workout` element, if any. */
    method MoveToPopup(target: Option<string>) returns (outcome: Selection)
      requires Valid()
      modifies Objects()
      ensures Valid() && workouts == old(workouts)
      ensures outcome == SelectOutcome(old(Items()), target)
      ensures Items() == SelectAsWritten(old(Items()), target)
    {
      IdsOfItems(workouts);
      if target.None? {
        return Ignored;
      }
      var found := FindById(EntryIds(workouts), target.value);
      if found.None? {
        return NotFound;
      }
      var i := found.value;
      if workouts[i].Plain? {
        return NoClickMethod;
      }
      ClickEntry(workouts, i);
      outcome := Clicked(i);
    }

    /** `_get_Local_storage`: `stored` is the parsed stored collection, None when nothing is stored. */
    method GetLocalStorage(stored: Option<seq<Record>>)
      requires Valid()
      modifies this`workouts
      ensures Valid()
      ensures stored.None? ==> workouts == old(workouts)
      ensures stored.Some? ==> Items() == Restore(stored.value) && Objects() == {}
    {
      if stored.None? {
        return;
      }
      workouts := seq(|stored.value|, k requires 0 <= k < |stored.value| => Plain(stored.value[k]));
    }
  }

  /**
   * A session: the app starts with nothing stored, the map is clicked, a workout is submitted
   * and its list entry is clicked; that workout then has one click.
   */
  method SubmitThenSelect(at: LatLng, form: Form, now: nat, date: Date) returns (selection: Selection, clicks: nat)
    requires ValidDate(date)
    ensures selection == Clicked(0) && clicks == 1
  {
    var app := new Tracker(None);
    app.ShowForm(at);
    var outcome, stored := app.NewWorkout(form, now, date);
    assert ItemIds(app.Items()) == [MakeId(now)];
    selection := app.MoveToPopup(Some(MakeId(now)));
    clicks := app.Items()[0].rec.clicks;
  }
}
