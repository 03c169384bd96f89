/**
 * The workout entities: `Workout` with its two kinds, running and cycling.
 * A workout object is created once, with its derived fields (id, pace or speed,
 * description) computed in its constructor; afterwards only its click counter changes.
 */
module Workouts {
  import opened Common
  import opened Numbers
  import opened Decimal

  /** The `type` property: the kind of the workout. */
  datatype WorkoutType = Running | Cycling

  /** A map position `[lat, lng]`. */
  datatype LatLng = LatLng(lat: real, lng: real)

  /** The calendar part of the creation date: `getMonth()` (0-based) and `getDate()`. */
  datatype Date = Date(month: int, day: int)

  /** What a JavaScript `Date` guarantees of `getMonth()` and `getDate()`. */
  predicate ValidDate(d: Date)
  {
    0 <= d.month < 12 && 1 <= d.day <= 31
  }

  function TypeName(t: WorkoutType): string
  {
    match t
    case Running => "running"
    case Cycling => "cycling"
  }

  /** The month table the description is built from. */
  const Months: seq<string> := ["January", "February", "March", "April", "May", "June", "July",
                                "August", "September", "October", "November", "December"]

  /** `toUpperCase()` on one character, for the ASCII letters the type names use. */
  function UpperChar(c: char): char
  {
    if 'a' <= c <= 'z' then (c as int - 32) as char else c
  }

  /** `s[0].toUpperCase() + s.slice(1)` */
  function Capitalize(s: string): string
    requires |s| > 0
  {
    [UpperChar(s[0])] + s[1..]
  }

  /** The title part of the description: the capitalised type name. */
  function Title(t: WorkoutType): string
  {
    Capitalize(TypeName(t))
  }

  /** `_set_description`: "<Type> on <Month> <day>." */
  function Describe(t: WorkoutType, date: Date): string
    requires ValidDate(date)
  {
    Title(t) + " on " + Months[date.month] + " " + DecimalString(date.day) + "."
  }

  /** The number of characters an id keeps. */
  const IdLength: nat := 10

  /** The id: `(Date.now() + "").slice(-10)` for the timestamp `now` in milliseconds. */
  function MakeId(now: nat): string
  {
    SliceLast(DecimalString(now), IdLength)
  }

  /** An id is the last (at most) ten digits of the decimal timestamp. */
  lemma IdShape(now: nat)
    ensures var s, id := DecimalString(now), MakeId(now);
      |id| == Min(IdLength, |s|) && |id| <= IdLength && IsDigits(id) &&
      s == s[..|s| - |id|] + id
  {
    var s, id := DecimalString(now), MakeId(now);
    DecimalShape(now);
    SliceLastSuffix(s, IdLength);
    if |s| <= IdLength {
      assert id == s;
    } else {
      assert id == s[|s| - IdLength..];
      forall i | 0 <= i < |id| ensures IsDigit(id[i]) {
        assert id[i] == s[|s| - IdLength + i];
      }
    }
  }

  /** `cal_pace`: minutes per kilometre. */
  function Pace(duration: Num, distance: Num): Num
  {
    Div(duration, distance)
  }

  /** `cal_elegain`: kilometres per hour, the duration being in minutes. */
  function Speed(distance: Num, duration: Num): Num
  {
    Div(distance, Div(duration, Fin(60.0)))
  }

  /** The fields only one kind of workout has. */
  datatype Detail = RunningDetail(cadence: Num, pace: Num) | CyclingDetail(elevgain: Num, speed: Num)

  /** The plain data of a workout: what `JSON.stringify` keeps of it and `JSON.parse` gives back. */
  datatype Record = Record(id: string, date: Date, clicks: nat, coords: LatLng,
                           duration: Num, distance: Num, kind: WorkoutType,
                           detail: Detail, description: string)

  /** The data of a running workout just created at time `now` on `date`. */
  function NewRunning(now: nat, date: Date, coords: LatLng, duration: Num, distance: Num, cadence: Num): Record
    requires ValidDate(date)
  {
    Record(MakeId(now), date, 0, coords, duration, distance, Running,
           RunningDetail(cadence, Pace(duration, distance)), Describe(Running, date))
  }

  /** The data of a cycling workout just created at time `now` on `date`. */
  function NewCycling(now: nat, date: Date, coords: LatLng, duration: Num, distance: Num, elevgain: Num): Record
    requires ValidDate(date)
  {
    Record(MakeId(now), date, 0, coords, duration, distance, Cycling,
           CyclingDetail(elevgain, Speed(distance, duration)), Describe(Cycling, date))
  }

  lemma {:induction false} Pow10Monotone(i: nat, j: nat)
    requires i <= j
    ensures Pow10(i) <= Pow10(j)
  {
    if i < j {
      Pow10Monotone(i, j - 1);
    }
  }

  lemma SmallMod(n: nat, w: nat)
    requires n < w
    ensures n % w == n
  {
  }

  lemma NonNegativeProduct(k: int, w: int)
    requires k >= 0 && w >= 0
    ensures k * w >= 0
  {
  }

  lemma ModOfShifted(a: nat, w: nat, b: nat)
    requires b < w
    ensures (a * w + b) % w == b
  {
    var n := a * w + b;
    var q, r := n / w, n % w;
    assert n == q * w + r;
    assert (q - a) * w == b - r;
    if q - a >= 1 {
      NonNegativeProduct(q - a - 1, w);
    } else if q - a <= -1 {
      NonNegativeProduct(a - q - 1, w);
    }
  }

  /** The id is the timestamp modulo 10^10, written in decimal (without padding). */
  lemma IdValue(now: nat)
    ensures IsDigits(MakeId(now)) && DigitsValue(MakeId(now)) == now % Pow10(IdLength)
  {
    var s := DecimalString(now);
    var id := MakeId(now);
    IdShape(now);
    var w := Pow10(IdLength);
    DecimalRoundTrip(now);
    if |s| <= IdLength {
      assert id == s;
      DigitsValueBound(s);
      Pow10Monotone(|s|, IdLength);
      SmallMod(now, w);
    } else {
      var p := s[..|s| - IdLength];
      assert s == p + id;
      DigitsValueConcat(p, id);
      DigitsValueBound(id);
      assert now == DigitsValue(p) * w + DigitsValue(id);
      ModOfShifted(DigitsValue(p), w, DigitsValue(id));
    }
  }

  lemma ModDistinct(t1: nat, t2: nat, w: nat)
    requires 0 < w && t1 < t2 < t1 + w
    ensures t1 % w != t2 % w
  {
    var q1, q2 := t1 / w, t2 / w;
    assert t1 == q1 * w + t1 % w;
    assert t2 == q2 * w + t2 % w;
    if t1 % w == t2 % w {
      assert (q2 - q1) * w == t2 - t1;
      if q2 - q1 >= 1 {
        NonNegativeProduct(q2 - q1 - 1, w);
      } else {
        NonNegativeProduct(q1 - q2, w);
      }
    }
  }

  /** Two workouts created less than 10^10 ms (about 115 days) apart get different ids. */
  lemma IdsDistinct(t1: nat, t2: nat)
    requires t1 < t2 < t1 + Pow10(IdLength)
    ensures MakeId(t1) != MakeId(t2)
  {
    IdValue(t1);
    IdValue(t2);
    ModDistinct(t1, t2, Pow10(IdLength));
  }

  lemma TitleNames()
    ensures Title(Running) == "Running" && Title(Cycling) == "Cycling"
  {
  }

  lemma MonthsWithoutSpaces(m: int)
    requires 0 <= m < 12
    ensures |Months[m]| > 0 && forall i :: 0 <= i < |Months[m]| ==> Months[m][i] != ' '
  {
  }

  lemma MonthsDistinct(m1: int, m2: int)
    requires 0 <= m1 < 12 && 0 <= m2 < 12 && Months[m1] == Months[m2]
    ensures m1 == m2
  {
  }

  /** Two strings that start with a space-free word followed by a space split the same way. */
  lemma SplitAtSpace(m1: string, r1: string, m2: string, r2: string)
    requires forall i :: 0 <= i < |m1| ==> m1[i] != ' '
    requires forall i :: 0 <= i < |m2| ==> m2[i] != ' '
    requires m1 + " " + r1 == m2 + " " + r2
    ensures m1 == m2 && r1 == r2
  {
    var s := m1 + " " + r1;
    assert s[|m1|] == ' ' && s[|m2|] == ' ';
    assert |m1| == |m2|;
    assert m1 == s[..|m1|] == m2;
    assert r1 == s[|m1| + 1..] == r2;
  }

  lemma SplitAtLength(p1: string, r1: string, p2: string, r2: string)
    requires |p1| == |p2| && p1 + r1 == p2 + r2
    ensures p1 == p2 && r1 == r2
  {
    assert p1 == (p1 + r1)[..|p1|];
    assert r1 == (p1 + r1)[|p1|..];
  }

  lemma DescribeParts(t: WorkoutType, d: Date)
    requires ValidDate(d)
    ensures Describe(t, d) == (Title(t) + " on ") + (Months[d.month] + " " + (DecimalString(d.day) + "."))
    ensures |Title(t) + " on "| == 11
  {
    TitleNames();
  }

  /** A description names its type, month and day unambiguously. */
  lemma DescribeInjective(t1: WorkoutType, d1: Date, t2: WorkoutType, d2: Date)
    requires ValidDate(d1) && ValidDate(d2)
    requires Describe(t1, d1) == Describe(t2, d2)
    ensures t1 == t2 && d1 == d2
  {
    var day1, day2 := DecimalString(d1.day), DecimalString(d2.day);
    DescribeParts(t1, d1);
    DescribeParts(t2, d2);
    SplitAtLength(Title(t1) + " on ", Months[d1.month] + " " + (day1 + "."),
                  Title(t2) + " on ", Months[d2.month] + " " + (day2 + "."));
    TitleNames();
    assert Title(t1)[0] == (Title(t1) + " on ")[0] == (Title(t2) + " on ")[0] == Title(t2)[0];
    MonthsWithoutSpaces(d1.month);
    MonthsWithoutSpaces(d2.month);
    SplitAtSpace(Months[d1.month], day1 + ".", Months[d2.month], day2 + ".");
    MonthsDistinct(d1.month, d2.month);
    assert day1 == (day1 + ".")[..|day1|];
    assert day2 == (day2 + ".")[..|day2|];
    DecimalInjective(d1.day, d2.day);
  }

  /** A running workout created on 18 October. */
  lemma DescribeExample()
    ensures Describe(Running, Date(9, 18)) == "Running on October 18."
  {
    assert DecimalString(18) == "18";
  }

  /** For a finite positive distance and duration the pace is their exact quotient. */
  lemma PaceOfValidInput(duration: Num, distance: Num)
    requires IsFinite(duration) && IsPositive(duration) && IsFinite(distance) && IsPositive(distance)
    ensures Pace(duration, distance) == Fin(duration.r / distance.r)
    ensures IsPositive(Pace(duration, distance))
  {
    DivPositive(duration, distance);
  }

  /** For a finite positive distance and duration the speed is distance over hours. */
  lemma SpeedOfValidInput(distance: Num, duration: Num)
    requires IsFinite(duration) && IsPositive(duration) && IsFinite(distance) && IsPositive(distance)
    ensures Speed(distance, duration) == Fin(distance.r / (duration.r / 60.0))
    ensures Speed(distance, duration) == Fin(60.0 * distance.r / duration.r)
    ensures IsPositive(Speed(distance, duration))
  {
  }

  /** Pace (min/km) and speed (km/h) of the same finite positive input multiply to 60. */
  lemma PaceSpeedReciprocal(duration: Num, distance: Num)
    requires IsFinite(duration) && IsPositive(duration) && IsFinite(distance) && IsPositive(distance)
    ensures Pace(duration, distance).r * Speed(distance, duration).r == 60.0
  {
    var du, di := duration.r, distance.r;
    SpeedOfValidInput(distance, duration);
    assert (du / di) * (60.0 * di / du) == 60.0 * ((du / di) * (di / du));
    assert (du / di) * (di / du) == 1.0;
  }

  /** The value of a property that is present; an absent one reads as NaN. */
  function Present(o: Option<Num>): Num
  {
    if o.Some? then o.value else NaN
  }

  /** `Workout`, `Running` and `Cycling`: one class whose `kind` says which of the two it is. */
  class Workout {
    const date: Date
    const id: string
    var clicks: nat
    const coords: LatLng
    const duration: Num
    const distance: Num
    const kind: WorkoutType
    // Properties a workout of the other kind never has are `None` (undefined).
    const cadence: Option<Num>
    var pace: Option<Num>
    const elevgain: Option<Num>
    var speed: Option<Num>
    var description: Option<string>

    /** The derived fields agree with the fields they were computed from. */
    ghost predicate Valid()
      reads this
    {
      ValidDate(date) &&
      description == Some(Describe(kind, date)) &&
      match kind
      case Running =>
        cadence.Some? && pace == Some(Pace(duration, distance)) && elevgain.None? && speed.None?
      case Cycling =>
        elevgain.Some? && speed == Some(Speed(distance, duration)) && cadence.None? && pace.None?
    }

    /** The object's data; in a valid object every property read here is present. */
    function ToRecord(): Record
      reads this
    {
      Record(id, date, clicks, coords, duration, distance, kind,
             match kind
             case Running => RunningDetail(Present(cadence), Present(pace))
             case Cycling => CyclingDetail(Present(elevgain), Present(speed)),
             if description.Some? then description.value else "")
    }

    /** `new Running(coords, duration, distance, cadence)` at time `now` on `date`. */
    constructor CreateRunning(now: nat, date: Date, coords: LatLng, duration: Num, distance: Num, cadence: Num)
      requires ValidDate(date)
      ensures Valid() && kind == Running
      ensures ToRecord() == NewRunning(now, date, coords, duration, distance, cadence)
    {
      this.date := date;
      this.id := MakeId(now);
      this.clicks := 0;
      this.coords := coords;
      this.duration := duration;
      this.distance := distance;
      this.kind := Running;
      this.cadence, this.elevgain := Some(cadence), None;
      this.pace, this.speed, this.description := None, None, None;
      new;
      var returned := CalPace();
      SetDescription();
    }

    /** `new Cycling(coords, duration, distance, elevgain)` at time `now` on `date`. */
    constructor CreateCycling(now: nat, date: Date, coords: LatLng, duration: Num, distance: Num, elevgain: Num)
      requires ValidDate(date)
      ensures Valid() && kind == Cycling
      ensures ToRecord() == NewCycling(now, date, coords, duration, distance, elevgain)
    {
      this.date := date;
      this.id := MakeId(now);
      this.clicks := 0;
      this.coords := coords;
      this.duration := duration;
      this.distance := distance;
      this.kind := Cycling;
      this.cadence, this.elevgain := None, Some(elevgain);
      this.pace, this.speed, this.description := None, None, None;
      new;
      var returned := CalElegain();
      SetDescription();
    }

    /** `cal_pace`: stores the pace, then returns `this.speed`, not the pace. */
    method CalPace() returns (r: Option<Num>)
      modifies this`pace
      ensures pace == Some(Pace(duration, distance))
      ensures r == speed
    {
      pace := Some(Pace(duration, distance));
      r := speed;
    }

    /** `cal_elegain`: stores the speed and returns it. */
    method CalElegain() returns (r: Option<Num>)
      modifies this`speed
      ensures speed == Some(Speed(distance, duration))
      ensures r == speed
    {
      speed := Some(Speed(distance, duration));
      r := speed;
    }

    /** `_set_description` */
    method SetDescription()
      requires ValidDate(date)
      modifies this`description
      ensures description == Some(Describe(kind, date))
    {
      description := Some(Describe(kind, date));
    }

    /** `click()`: one more click, nothing else changes. */
    method Click()
      modifies this`clicks
      ensures Valid() == old(Valid())
      ensures clicks == old(clicks) + 1
      ensures ToRecord() == old(ToRecord()).(clicks := old(clicks) + 1)
    {
      clicks := clicks + 1;
    }
  }
}
