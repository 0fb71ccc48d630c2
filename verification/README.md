# Fitness tracker workout model

A Dafny model of the fitness tracker's workout calculator. The tracker takes a
sensor package, which is a workout code and a flat list of readings. It builds
a session of one of three kinds: Running, SportsWalking or Swimming. From the
session it computes the distance in km, the mean speed in km/h and the
calories burned, and it collects them into an `InfoMessage` summary.

Modules, following the program's structure:

- `Wrappers`: the `Result` type that carries either a value or an error.
- `Errors`: the exceptions the program raises, as values, with the message
  the program writes for an unknown code. An unknown workout
  type and a failed tuple unpacking are both `ValueError`. A division by a
  zero duration or height is `ZeroDivisionError`.
- `Trainings`: the named constants, the `Training` datatype, and the
  per-kind distance, mean speed and calorie formulas. `Training` has one
  constructor per class. This module also holds the `InfoMessage` record,
  `ShowTrainingInfo`, and `TryShowTrainingInfo`, its total form that returns
  the division error.
- `TrainingProperties`: the properties of these formulas. Distance and speed
  scale with the readings. Swimming speed does not depend on the stroke
  count. Each calorie formula also gets a reference form that does not divide
  by the duration or the height.
- `Packages`: `ReadPackage`, the dispatch from a code and a list of readings
  to a session. Its inverse, `CodeOf` with `DataOf`, turns a session back
  into its package.
- `Driver`: the driver's loop without its printing. Each package is read
  and summarised in order, and the first error aborts the batch.
- `Samples`: the driver's three sample packages and two failing packages,
  each worked through with exact values.

All quantities are exact `real` numbers. The formulas use only `+`, `*`, `/`
and squaring by fixed constants, so each one is a rational expression of the
readings. A zero duration or a zero walker's height makes the program raise
`ZeroDivisionError`. The metric functions take these as preconditions
(`Computable`). `TryShowTrainingInfo` models the raise itself, as
`Failure(ZeroDivision)`.

## Model

| member | source | states |
|---|---|---|
| Trainings.NewSportsWalking | homework.py:90-92 | a walk stores its height in metres: stored height × 100 is the height in cm, and it is zero (or positive) exactly when the cm value is |
| Trainings.Distance | homework.py:41-43 | distance is zero exactly when there are no actions, and positive exactly when the action count is |
| Trainings.MeanSpeed | homework.py:45-47 | needs a non-zero duration; for running and walking, speed × duration is the distance; for swimming, speed × duration × 1000 is pool length × pool count; never negative for plausible readings |
| Trainings.SpentCalories | homework.py:72-129 | needs a non-zero duration (and a non-zero height for a walk); never negative for plausible readings; zero for zero body weight |
| Trainings.ShowTrainingInfo | homework.py:53-62 | the summary holds the kind's class name, the stored duration unchanged, and exactly the distance, speed and calories of the same session |
| Trainings.TryShowTrainingInfo | homework.py:53-62 | building the summary fails exactly when the duration is zero or a walk's height is zero, always with the division error, and otherwise yields the summary |
| TrainingProperties.DistanceScales | homework.py:41-43 | multiplying the action count by k multiplies the distance by k |
| TrainingProperties.DistanceAdds | homework.py:41-43 | the distance of a + b actions is the sum of the distances of a and of b actions |
| TrainingProperties.DistancePerThousandActions | homework.py:65-108 | 1000 actions cover 0.65 km on foot and 1.38 km swimming, so each action is 0.65 m or 1.38 m |
| TrainingProperties.ZeroActionsGoNowhere | homework.py:41-47 | no actions gives zero distance and, on foot, zero speed |
| TrainingProperties.SpeedScalesWithAction | homework.py:45-47 | on foot, multiplying the action count by k multiplies the speed by k |
| TrainingProperties.SpeedInverselyProportionalToDuration | homework.py:45-47 | changing only the duration keeps speed × duration fixed, for every kind |
| TrainingProperties.SwimmingSpeedIgnoresAction | homework.py:117-121 | a swim's speed and calories do not change with its stroke count |
| TrainingProperties.RunningCaloriesClosedForm | homework.py:72-79 | running calories × 1000 = (18 × distance + 1.79 × duration) × weight × 60 |
| TrainingProperties.RunningCaloriesIncreaseWithAction | homework.py:72-79 | with positive weight and duration, a run with more steps burns strictly more calories |
| TrainingProperties.WalkingCaloriesClosedForm | homework.py:94-103 | walking calories × duration × height = 60 × weight × (0.035 × height × duration² + 0.029 × (0.278 × distance)²); only speed × 0.278 is squared, and the height divides it once |
| TrainingProperties.WalkingAtRest | homework.py:94-103 | a walk with no steps burns 2.1 × weight × duration |
| TrainingProperties.SwimmingCaloriesClosedForm | homework.py:123-129 | swimming calories × 1000 = 2 × weight × (pool length × pool count + 1100 × duration) |
| TrainingProperties.TypeNameIdentifiesKind | homework.py:56 | two sessions have the same summary type name exactly when they are of the same kind, so the three names are distinct |
| Packages.ReadPackage | homework.py:132-144 | succeeds exactly for RUN with 3, WLK with 4 and SWM with 5 readings; any other code fails with an error whose message ends with that code; a known code with the wrong count fails with the expected and actual counts; on success the session's code and readings are exactly the package's, in order; every failure is a ValueError |
| Packages.ReadPackageOfDataOf | homework.py:134-142 | every session is read back unchanged from its own code and readings |
| Packages.ReadPackageInjective | homework.py:134-142 | two packages that read as the same session are the same package |
| Packages.CodeDeterminesTypeName | homework.py:134-142 | RUN reads as Running, WLK as SportsWalking and SWM as Swimming, and no other way round |
| Errors.UnknownTypeMessage | homework.py:144 | the unknown-type message is the fixed text "Unknown workout type: " followed by the offending code, and it ends with that code |
| Errors.UnknownTypeMessageInjective | homework.py:143-144 | the unknown-type message determines the offending code |
| Driver.ProcessPackage | homework.py:147-150 | one package yields a summary exactly when it reads as a session whose metrics are defined, and that summary is the session's; a reading error is passed on unchanged, and a session with zero duration or zero walking height fails with the division error |
| Driver.RunPackages | homework.py:159-161 | the packages are processed in order; the summaries returned are those of every package before the first failing one (all of them if none fails), and the abort carries that package's error |
| Samples.SampleSwimming | homework.py:155 | the sample swim gives distance 0.9936 km, speed 1 km/h and 336 kcal |
| Samples.SampleRunning | homework.py:156 | the sample run gives 9.75 km, 9.75 km/h and 797.805 kcal |
| Samples.SampleWalking | homework.py:157 | the sample walk gives 5.85 km, 5.85 km/h and 349.251747525 kcal |
| Samples.SampleUnknownCode | homework.py:143-144 | code BIKE fails with the unknown-type error, whose message is "Unknown workout type: BIKE" |
| Samples.SampleShortRun | homework.py:135 | RUN with two readings fails at unpacking: 3 expected, 2 given |

## Left out

- The printing in `main` and in the `__main__` driver (homework.py:147-161) is not modelled. `Driver` keeps the loop and its abort-on-first-error behaviour, and the sample data appear as the `Samples` lemmas.
- `InfoMessage.get_message` (homework.py:15-24) renders the record as localised text with three decimals. The model keeps the record's fields but not the text.
- The base `Training.get_spent_calories` returns `None` and is never reached through `read_package`. Instances of the bare base class are not modelled either.
- IEEE-754 floating point is not modelled. Every quantity is an exact real, so float rounding and overflow to infinity are out of scope.
- Python does not enforce the type hints. The action count and the pool count are reals like every other reading, and the readings are not checked to be numbers.
- Python's own text for a failed tuple unpacking depends on the interpreter version. The model keeps only the expected and actual counts.
