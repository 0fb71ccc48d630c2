/**
 The three workout kinds and the metrics computed from their sensor readings.

 Every quantity is an exact `real`: the formulas use only `+`, `*`, `/` and
 squaring, so they are rational expressions of the readings. The two divisions
 that can fail (by the duration and by the walker's height) are preconditions
 of the metric functions; `TryShowTrainingInfo` models the same computation
 with the division error returned as a value.
 */
module Trainings {
  import opened Wrappers
  import opened Errors

  // Constants shared by every workout (the base class).
  const MetersInKm: real := 1000.0
  const MinutesInHour: real := 60.0

  /** Length of one step, in metres, for running and sports walking. */
  const StepLength: real := 0.65
  /** Length of one stroke cycle, in metres, for swimming. */
  const StrokeLength: real := 1.38

  // Running calorie formula.
  const RunSpeedMultiplier: real := 18.0
  const RunSpeedShift: real := 1.79

  // Sports-walking calorie formula.
  const WalkWeightMultiplier: real := 0.035
  const WalkSpeedHeightMultiplier: real := 0.029
  /** Converts km/h to m/s (rounded as the formula states it). */
  const KmhToMs: real := 0.278
  const CmInM: real := 100.0

  // Swimming calorie formula.
  const SwimSpeedShift: real := 1.1
  const SwimSpeedMultiplier: real := 2.0

  /**
   One workout session. `action` counts steps or stroke cycles, `duration`
   is in hours, `weight` in kilograms. A sports walk keeps its `height` in
   metres (converted once, at construction); a swim keeps the pool length
   in metres and the number of pool lengths covered.
   */
  datatype Training =
    | Running(action: real, duration: real, weight: real)
    | SportsWalking(action: real, duration: real, weight: real, height: real)
    | Swimming(action: real, duration: real, weight: real,
               lengthPool: real, countPool: real)

  /** Builds a sports walk from a height given in centimetres. */
  function NewSportsWalking(action: real, duration: real, weight: real,
                            heightCm: real): (t: Training)
    ensures t.SportsWalking?
    ensures t.action == action && t.duration == duration && t.weight == weight
    ensures t.height * CmInM == heightCm
    ensures t.height == 0.0 <==> heightCm == 0.0
    ensures t.height > 0.0 <==> heightCm > 0.0
  {
    SportsWalking(action, duration, weight, heightCm / CmInM)
  }

  /** The distance one action covers, in metres. */
  function UnitLength(t: Training): real {
    if t.Swimming? then StrokeLength else StepLength
  }

  /** Distance in kilometres: actions times their length. */
  function Distance(t: Training): (km: real)
    ensures km == 0.0 <==> t.action == 0.0
    ensures km > 0.0 <==> t.action > 0.0
  {
    t.action * UnitLength(t) / MetersInKm
  }

  /**
   Mean speed in km/h. Running and walking divide the distance by the
   duration; swimming ignores the stroke count and uses the pool lengths
   swum instead.
   */
  function MeanSpeed(t: Training): (kmh: real)
    requires t.duration != 0.0
    ensures !t.Swimming? ==> kmh * t.duration == Distance(t)
    ensures t.Swimming? ==>
      kmh * t.duration * MetersInKm == t.lengthPool * t.countPool
    ensures Plausible(t) ==> kmh >= 0.0
  {
    match t
    case Swimming(_, duration, _, lengthPool, countPool) =>
      lengthPool * countPool / MetersInKm / duration
    case _ =>
      Distance(t) / t.duration
  }

  /** The inputs for which every metric is defined (no division by zero). */
  predicate Computable(t: Training) {
    && t.duration != 0.0
    && (t.SportsWalking? ==> t.height != 0.0)
  }

  /** Readings a real session can produce: nothing negative, time elapsed. */
  predicate Plausible(t: Training) {
    && t.action >= 0.0
    && t.duration > 0.0
    && t.weight >= 0.0
    && (t.SportsWalking? ==> t.height > 0.0)
    && (t.Swimming? ==> t.lengthPool >= 0.0 && t.countPool >= 0.0)
  }

  /** Calories burned, by the formula of each kind of workout. */
  function SpentCalories(t: Training): (kcal: real)
    requires Computable(t)
    ensures Plausible(t) ==> kcal >= 0.0
    ensures t.weight == 0.0 ==> kcal == 0.0
  {
    var v := MeanSpeed(t);
    match t
    case Running(_, duration, weight) =>
      var perKg := RunSpeedMultiplier * v + RunSpeedShift;
      assert Plausible(t) ==> perKg * weight >= 0.0 && perKg * weight * duration >= 0.0 by {
        if Plausible(t) { ScaledNonNegative(perKg, weight, duration); }
      }
      perKg * weight / MetersInKm * duration * MinutesInHour
    case SportsWalking(_, duration, weight, height) =>
      var s := v * KmhToMs;
      var perKg := WalkWeightMultiplier + s * s / height * WalkSpeedHeightMultiplier;
      assert Plausible(t) ==> perKg >= 0.0 by {
        if Plausible(t) {
          assert s * s >= 0.0;
          assert s * s / height >= 0.0;
        }
      }
      assert Plausible(t) ==> perKg * weight >= 0.0 && perKg * weight * duration >= 0.0 by {
        if Plausible(t) { ScaledNonNegative(perKg, weight, duration); }
      }
      (WalkWeightMultiplier * weight
       + (s * s / height) * WalkSpeedHeightMultiplier * weight)
      * duration * MinutesInHour
    case Swimming(_, duration, weight, _, _) =>
      var perKg := (v + SwimSpeedShift) * SwimSpeedMultiplier;
      assert Plausible(t) ==> perKg * weight >= 0.0 && perKg * weight * duration >= 0.0 by {
        if Plausible(t) { ScaledNonNegative(perKg, weight, duration); }
      }
      (v + SwimSpeedShift) * SwimSpeedMultiplier * weight * duration
  }

  /** A per-kilogram rate times weight and time is non-negative when all
      three factors are. */
  lemma ScaledNonNegative(perKg: real, weight: real, duration: real)
    requires perKg >= 0.0 && weight >= 0.0 && duration > 0.0
    ensures perKg * weight >= 0.0
    ensures perKg * weight * duration >= 0.0
  {
  }

  /** The class name the summary shows for each kind of workout. */
  function TypeName(t: Training): string {
    match t
    case Running(_, _, _) => "Running"
    case SportsWalking(_, _, _, _) => "SportsWalking"
    case Swimming(_, _, _, _, _) => "Swimming"
  }

  /** True when both sessions are of the same kind. */
  predicate SameKind(a: Training, b: Training) {
    && (a.Running? <==> b.Running?)
    && (a.SportsWalking? <==> b.SportsWalking?)
    && (a.Swimming? <==> b.Swimming?)
  }

  /** The computed summary of one session. */
  datatype InfoMessage = InfoMessage(
    trainingType: string,
    duration: real,
    distance: real,
    speed: real,
    calories: real)

  /** Summary of a session whose metrics are all defined. */
  function ShowTrainingInfo(t: Training): (m: InfoMessage)
    requires Computable(t)
    ensures m.trainingType == TypeName(t)
    ensures m.duration == t.duration
    ensures m.distance == Distance(t)
    ensures m.speed == MeanSpeed(t)
    ensures m.calories == SpentCalories(t)
  {
    InfoMessage(TypeName(t), t.duration, Distance(t), MeanSpeed(t),
                SpentCalories(t))
  }

  /**
   The same summary for any session: a zero duration (read by the speed)
   or a zero height (read by the walking calories) raises the division
   error instead.
   */
  function TryShowTrainingInfo(t: Training): (r: Result<InfoMessage, Error>)
    ensures r.Failure? <==> !Computable(t)
    ensures r.Failure? ==> r.error == ZeroDivision
    ensures r.Success? ==> r.value == ShowTrainingInfo(t)
  {
    if t.duration == 0.0 then Failure(ZeroDivision)
    else if t.SportsWalking? && t.height == 0.0 then Failure(ZeroDivision)
    else Success(ShowTrainingInfo(t))
  }
}
