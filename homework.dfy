/** A model of the workout calculator: three workout kinds that turn raw
    sensor readings (steps or strokes, hours, kilograms and a few
    kind-specific parameters) into distance in km, mean speed in km/h and
    spent kilocalories; a dispatcher that builds a workout from a short
    kind code and a positional list of readings; and the summary record
    that snapshots the computed quantities.

    Every quantity is an exact `real`: the formulas use only `+ - * /` and
    one floor division, so nothing here depends on IEEE-754 rounding. */
module Homework {

  datatype Result<T, E> = Ok(value: T) | Err(error: E)

  /* ---------------------------------------------------------------------
     Constants shared by every workout kind, and the per-kind coefficients
     --------------------------------------------------------------------- */

  const MetersInKm: real := 1000.0
  const MinutesInHour: real := 60.0
  /** Step length in metres for running and sports walking. */
  const StepLength: real := 0.65
  /** Stroke length in metres, the swimming override of the step length. */
  const StrokeLength: real := 1.38

  const RunSpeedFactor: real := 18.0
  const RunSpeedShift: real := 20.0

  const WalkWeightFactor: real := 0.035
  const WalkSpeedFactor: real := 0.029

  const SwimSpeedShift: real := 1.1
  const SwimWeightFactor: real := 2.0

  /* ---------------------------------------------------------------------
     Workouts
     --------------------------------------------------------------------- */

  /** One workout session. The fields are fixed at construction and never
      reassigned, so each kind is a value. `action` is the number of steps
      (running, walking) or strokes (swimming). */
  datatype Training =
    | Running(action: real, duration: real, weight: real)
    | SportsWalking(action: real, duration: real, weight: real, height: real)
    | Swimming(action: real, duration: real, weight: real, lengthPool: real, countPool: real)

  /** The class name a workout reports in its summary; each kind has its
      own. */
  function KindName(t: Training): (name: string)
    ensures t.Running? <==> name == "Running"
    ensures t.SportsWalking? <==> name == "SportsWalking"
    ensures t.Swimming? <==> name == "Swimming"
  {
    match t
    case Running(_, _, _) => "Running"
    case SportsWalking(_, _, _, _) => "SportsWalking"
    case Swimming(_, _, _, _, _) => "Swimming"
  }

  /** The length in metres covered by one step or stroke. */
  function LenStep(t: Training): (m: real)
    ensures m > 0.0
    ensures t.Swimming? ==> m == StrokeLength
    ensures !t.Swimming? ==> m == StepLength
  {
    if t.Swimming? then StrokeLength else StepLength
  }

  /** Distance in km: steps times step length, converted from metres. */
  function Distance(t: Training): (km: real)
    ensures km * MetersInKm == t.action * LenStep(t)
    ensures t.action >= 0.0 ==> km >= 0.0
  {
    t.action * LenStep(t) / MetersInKm
  }

  /** Distance in km swum: pool length in metres times the number of
      lengths, converted from metres. */
  function PoolDistance(t: Training): (km: real)
    requires t.Swimming?
    ensures km * MetersInKm == t.lengthPool * t.countPool
  {
    t.lengthPool * t.countPool / MetersInKm
  }

  /** Mean speed in km/h. Running and walking divide the step distance by
      the duration; swimming divides the pool distance instead, so the
      stroke count plays no part. A zero duration is a division by zero in
      the source, which callers must avoid. */
  function MeanSpeed(t: Training): (kmh: real)
    requires t.duration != 0.0
    ensures !t.Swimming? ==> kmh * t.duration == Distance(t)
    ensures t.Swimming? ==> kmh * t.duration == PoolDistance(t)
  {
    if t.Swimming? then PoolDistance(t) / t.duration
    else Distance(t) / t.duration
  }

  /** Python's floor division `x // y` on floats: the greatest whole number
      not above the quotient. */
  function FloorDiv(x: real, y: real): (q: real)
    requires y != 0.0
    ensures q == q.Floor as real
    ensures y > 0.0 ==> q * y <= x < q * y + y
    ensures y < 0.0 ==> q * y >= x > q * y + y
  {
    var z := (x / y).Floor as real;
    assert z <= x / y < z + 1.0;
    assert (x / y) * y == x && (z + 1.0) * y == z * y + y;
    if y > 0.0 then
      MulMonotone(z, x / y, y);
      MulStrict(x / y, z + 1.0, y);
      assert x < z * y + y;
      z
    else
      MulAntitone(z, x / y, y);
      MulAntitoneStrict(x / y, z + 1.0, y);
      assert x > z * y + y;
      z
  }

  /** Every quantity the calorie formula of `t` divides by is non-zero. */
  predicate CaloriesDefined(t: Training)
  {
    match t
    case SportsWalking(_, d, _, h) => d != 0.0 && h != 0.0
    case _ => t.duration != 0.0
  }

  /** The whole-number factor of the walking formula: the squared mean
      speed floor-divided by the height. */
  function WalkingSpeedTerm(t: Training): (n: real)
    requires t.SportsWalking? && CaloriesDefined(t)
    ensures n == n.Floor as real
  {
    FloorDiv(MeanSpeed(t) * MeanSpeed(t), t.height)
  }

  /** Spent kilocalories, one formula per kind. */
  function SpentCalories(t: Training): (kcal: real)
    requires CaloriesDefined(t)
  {
    match t
    case Running(_, d, w) =>
      (RunSpeedFactor * MeanSpeed(t) - RunSpeedShift) * w / MetersInKm * d * MinutesInHour
    case SportsWalking(_, d, w, _) =>
      (WalkWeightFactor * w + WalkingSpeedTerm(t) * WalkSpeedFactor * w) * d * MinutesInHour
    case Swimming(_, _, w, _, _) =>
      (MeanSpeed(t) + SwimSpeedShift) * SwimWeightFactor * w
  }

  /* ---------------------------------------------------------------------
     The summary snapshot
     --------------------------------------------------------------------- */

  datatype InfoMessage = InfoMessage(
    trainingType: string,
    duration: real,
    distance: real,
    speed: real,
    calories: real)

  /** The summary of a workout: its kind name, its duration as given, and
      the three computed quantities of the same record. */
  function ShowTrainingInfo(t: Training): (m: InfoMessage)
    requires CaloriesDefined(t)
    ensures m.trainingType == KindName(t) && m.duration == t.duration
    ensures m.distance == Distance(t) && m.speed == MeanSpeed(t) && m.calories == SpentCalories(t)
    ensures !t.Swimming? ==> m.speed * m.duration == m.distance
  {
    InfoMessage(KindName(t), t.duration, Distance(t), MeanSpeed(t), SpentCalories(t))
  }

  const TypeLabel: string := "Тип тренировки: "

  /** The one-line rendering of a summary, fields in their fixed order.
      `fmt3` stands for the three-decimal float formatting, which this
      model does not define. */
  function GetMessage(m: InfoMessage, fmt3: real -> string): (s: string)
    ensures TypeLabel + m.trainingType + "; " <= s
    ensures |s| > |fmt3(m.calories)| && s[|s| - |fmt3(m.calories)| - 1..] == fmt3(m.calories) + "."
  {
    TypeLabel + m.trainingType + "; "
    + "Длительность: " + fmt3(m.duration) + " ч.; "
    + "Дистанция: " + fmt3(m.distance) + " км; "
    + "Ср. скорость: " + fmt3(m.speed) + " км/ч; "
    + "Потрачено ккал: " + fmt3(m.calories) + "."
  }

  /* ---------------------------------------------------------------------
     The dispatcher
     --------------------------------------------------------------------- */

  datatype PackageError =
    | NotFound     // the kind code is not one of the three known codes
    | WrongArity   // the readings do not fit the constructor of the kind

  /** The kind code under which the dispatcher builds each kind. */
  function Code(t: Training): string
  {
    match t
    case Running(_, _, _) => "RUN"
    case SportsWalking(_, _, _, _) => "WLK"
    case Swimming(_, _, _, _, _) => "SWM"
  }

  /** The positional readings a workout is built from, in constructor order. */
  function Package(t: Training): seq<real>
  {
    match t
    case Running(a, d, w) => [a, d, w]
    case SportsWalking(a, d, w, h) => [a, d, w, h]
    case Swimming(a, d, w, l, c) => [a, d, w, l, c]
  }

  predicate KnownCode(code: string)
  {
    code == "SWM" || code == "RUN" || code == "WLK"
  }

  /** Build a workout from a kind code and positional readings. An unknown
      code fails with NotFound whatever the readings; a known code whose
      constructor does not take exactly that many readings fails with
      WrongArity. */
  function ReadPackage(code: string, data: seq<real>): (r: Result<Training, PackageError>)
    ensures r == Err(NotFound) <==> !KnownCode(code)
    ensures r == Err(WrongArity) <==>
      (code == "SWM" && |data| != 5) || (code == "RUN" && |data| != 3) || (code == "WLK" && |data| != 4)
    ensures r.Ok? ==> Code(r.value) == code && Package(r.value) == data
  {
    if code == "SWM" then
      if |data| == 5 then Ok(Swimming(data[0], data[1], data[2], data[3], data[4])) else Err(WrongArity)
    else if code == "RUN" then
      if |data| == 3 then Ok(Running(data[0], data[1], data[2])) else Err(WrongArity)
    else if code == "WLK" then
      if |data| == 4 then Ok(SportsWalking(data[0], data[1], data[2], data[3])) else Err(WrongArity)
    else
      Err(NotFound)
  }

  /* ---------------------------------------------------------------------
     Arithmetic helpers
     --------------------------------------------------------------------- */

  lemma MulMonotone(a: real, b: real, c: real)
    requires a <= b && c > 0.0
    ensures a * c <= b * c
  {
  }

  lemma MulStrict(a: real, b: real, c: real)
    requires a < b && c > 0.0
    ensures a * c < b * c
  {
  }

  lemma MulAntitone(a: real, b: real, c: real)
    requires a <= b && c < 0.0
    ensures a * c >= b * c
  {
  }

  lemma PositiveFactor(a: real, c: real)
    requires c > 0.0 && a * c > 0.0
    ensures a > 0.0
  {
  }

  lemma NegativeFactor(a: real, c: real)
    requires c > 0.0 && a * c < 0.0
    ensures a < 0.0
  {
  }

  lemma MulAntitoneStrict(a: real, b: real, c: real)
    requires a < b && c < 0.0
    ensures a * c > b * c
  {
  }

  /* ---------------------------------------------------------------------
     Properties
     --------------------------------------------------------------------- */

  /** Distance per step: 0.65 m for running and walking; swimming resolves
      the step length to its own 1.38 m but keeps the inherited formula. */
  lemma DistancePerStep(t: Training)
    ensures !t.Swimming? ==> Distance(t) == t.action * 0.00065
    ensures t.Swimming? ==> Distance(t) == t.action * 0.00138
  {
  }

  /** A swimming record's speed and calories do not depend on its stroke
      count. */
  lemma SwimmingIgnoresAction(a: real, a': real, d: real, w: real, l: real, c: real)
    requires d != 0.0
    ensures MeanSpeed(Swimming(a, d, w, l, c)) == MeanSpeed(Swimming(a', d, w, l, c))
    ensures SpentCalories(Swimming(a, d, w, l, c)) == SpentCalories(Swimming(a', d, w, l, c))
  {
  }

  /** Spent kilocalories in terms of the raw readings: the duration cancels
      out of the running speed term, the walking formula is the weight times
      a per-hour rate, and swimming uses only the pool readings, never the
      stroke count. */
  lemma SpentCaloriesRawReadings(t: Training)
    requires CaloriesDefined(t)
    ensures t.Running? ==>
      SpentCalories(t) == (0.0117 * t.action - 20.0 * t.duration) * t.weight * 0.06
    ensures t.SportsWalking? ==>
      SpentCalories(t) == (0.035 + 0.029 * WalkingSpeedTerm(t)) * t.weight * t.duration * 60.0
    ensures t.Swimming? ==>
      SpentCalories(t) == (t.lengthPool * t.countPool / (1000.0 * t.duration) + 1.1) * 2.0 * t.weight
  {
    if t.Running? {
      var s, d, w := MeanSpeed(t), t.duration, t.weight;
      assert s * d == t.action * 0.00065;
      calc {
        SpentCalories(t);
        (18.0 * s - 20.0) * w / 1000.0 * d * 60.0;
        (18.0 * s * d - 20.0 * d) * w * 0.06;
        (18.0 * (t.action * 0.00065) - 20.0 * d) * w * 0.06;
      }
    }
  }

  /** With a positive weight and duration, running calories are negative
      exactly when the mean speed is below 20/18 km/h (no clamping), and
      zero exactly at that speed. */
  lemma RunningCaloriesSign(t: Training)
    requires t.Running? && t.duration > 0.0 && t.weight > 0.0
    ensures SpentCalories(t) < 0.0 <==> MeanSpeed(t) < RunSpeedShift / RunSpeedFactor
    ensures SpentCalories(t) == 0.0 <==> MeanSpeed(t) == RunSpeedShift / RunSpeedFactor
  {
    var k := t.weight / 1000.0 * t.duration * 60.0;
    assert k > 0.0 by {
      MulStrict(0.0, t.weight / 1000.0, t.duration);
    }
    var f := 18.0 * MeanSpeed(t) - 20.0;
    assert SpentCalories(t) == f * k;
    if f < 0.0 {
      MulStrict(f, 0.0, k);
    } else if f > 0.0 {
      MulStrict(0.0, f, k);
    }
  }

  /** Walking calories never fall below the weight-only term when weight,
      duration and height are positive, because the floor-divided speed
      term is then a non-negative whole number. */
  lemma WalkingCaloriesAtLeastBaseline(t: Training)
    requires t.SportsWalking? && t.duration > 0.0 && t.weight > 0.0 && t.height > 0.0
    ensures SpentCalories(t) >= WalkWeightFactor * t.weight * t.duration * MinutesInHour
  {
    var s, n := MeanSpeed(t), WalkingSpeedTerm(t);
    assert s * s >= 0.0;
    assert n > -1.0 by {
      assert (n + 1.0) * t.height == n * t.height + t.height;
      PositiveFactor(n + 1.0, t.height);
    }
    assert n >= 0.0;
    var extra := n * WalkSpeedFactor * t.weight;
    assert extra >= 0.0 by {
      MulMonotone(0.0, n * WalkSpeedFactor, t.weight);
    }
    var dm := t.duration * MinutesInHour;
    MulMonotone(WalkWeightFactor * t.weight, WalkWeightFactor * t.weight + extra, dm);
  }

  /** When the squared mean speed is below a positive height, the floor
      division is zero and walking calories reduce to the weight-only
      term. */
  lemma WalkingCaloriesSlow(t: Training)
    requires t.SportsWalking? && t.duration != 0.0 && t.height > 0.0
    requires MeanSpeed(t) * MeanSpeed(t) < t.height
    ensures WalkingSpeedTerm(t) == 0.0
    ensures SpentCalories(t) == WalkWeightFactor * t.weight * t.duration * MinutesInHour
  {
    var s, n := MeanSpeed(t), WalkingSpeedTerm(t);
    assert s * s >= 0.0;
    assert n < 1.0 by {
      assert (n - 1.0) * t.height == n * t.height - t.height;
      NegativeFactor(n - 1.0, t.height);
    }
    assert n > -1.0 by {
      assert (n + 1.0) * t.height == n * t.height + t.height;
      PositiveFactor(n + 1.0, t.height);
    }
  }

  /** Swimming calories are positive for a positive weight and a
      non-negative mean speed. */
  lemma SwimmingCaloriesPositive(t: Training)
    requires t.Swimming? && t.duration != 0.0 && t.weight > 0.0 && MeanSpeed(t) >= 0.0
    ensures SpentCalories(t) > 0.0
  {
    MulStrict(0.0, (MeanSpeed(t) + SwimSpeedShift) * SwimWeightFactor, t.weight);
  }

  /** A swimming summary takes its distance from the stroke count and its
      speed from the pool readings, so speed times duration matches the
      distance exactly when the strokes cover the pool distance. */
  lemma SwimmingSummaryConsistency(t: Training)
    requires t.Swimming? && t.duration != 0.0
    ensures var m := ShowTrainingInfo(t);
      m.speed * m.duration == m.distance <==> t.action * StrokeLength == t.lengthPool * t.countPool
  {
    var m := ShowTrainingInfo(t);
    assert m.speed * m.duration * MetersInKm == t.lengthPool * t.countPool;
    assert m.distance * MetersInKm == t.action * StrokeLength;
  }

  /** The dispatcher rebuilds every workout from its own code and readings. */
  lemma ReadPackageRoundTrip(t: Training)
    ensures ReadPackage(Code(t), Package(t)) == Ok(t)
  {
  }

  /** A package under a known code yields the kind whose summary carries
      the matching class name. */
  lemma ReadPackageKindName(code: string, data: seq<real>)
    requires ReadPackage(code, data).Ok?
    ensures KindName(ReadPackage(code, data).value) ==
      if code == "SWM" then "Swimming" else if code == "RUN" then "Running" else "SportsWalking"
  {
  }

  /* ---------------------------------------------------------------------
     The three sample packages
     --------------------------------------------------------------------- */

  lemma SampleSwimming()
    ensures ReadPackage("SWM", [720.0, 1.0, 80.0, 25.0, 40.0]).Ok?
    ensures ShowTrainingInfo(ReadPackage("SWM", [720.0, 1.0, 80.0, 25.0, 40.0]).value)
      == InfoMessage("Swimming", 1.0, 0.9936, 1.0, 336.0)
  {
  }

  lemma SampleRunning()
    ensures ReadPackage("RUN", [15000.0, 1.0, 75.0]).Ok?
    ensures ShowTrainingInfo(ReadPackage("RUN", [15000.0, 1.0, 75.0]).value)
      == InfoMessage("Running", 1.0, 9.75, 9.75, 699.75)
  {
  }

  lemma SampleWalking()
    ensures ReadPackage("WLK", [9000.0, 1.0, 75.0, 180.0]).Ok?
    ensures ShowTrainingInfo(ReadPackage("WLK", [9000.0, 1.0, 75.0, 180.0]).value)
      == InfoMessage("SportsWalking", 1.0, 5.85, 5.85, 157.5)
  {
    var t := SportsWalking(9000.0, 1.0, 75.0, 180.0);
    WalkingCaloriesSlow(t);
  }
}
