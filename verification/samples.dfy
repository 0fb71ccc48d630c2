/**
 The sample packages of the repository's driver, and two failing packages,
 worked through the model with exact values.
 */
module Samples {
  import opened Wrappers
  import opened Errors
  import opened Trainings
  import opened Packages

  /** A swim of 720 strokes in one hour, 80 kg, forty 25 m lengths: 1 km/h
      and 336 kcal. */
  lemma SampleSwimming()
    ensures var r := ReadPackage("SWM", [720.0, 1.0, 80.0, 25.0, 40.0]);
      && r.Success? && Computable(r.value)
      && ShowTrainingInfo(r.value) == InfoMessage("Swimming", 1.0, 0.9936, 1.0, 336.0)
  {
    var t := Swimming(720.0, 1.0, 80.0, 25.0, 40.0);
    assert MeanSpeed(t) == 1.0;
  }

  /** A run of 15000 steps in one hour, 75 kg: 9.75 km at 9.75 km/h and
      797.805 kcal. */
  lemma SampleRunning()
    ensures var r := ReadPackage("RUN", [15000.0, 1.0, 75.0]);
      && r.Success? && Computable(r.value)
      && ShowTrainingInfo(r.value) == InfoMessage("Running", 1.0, 9.75, 9.75, 797.805)
  {
    var t := Running(15000.0, 1.0, 75.0);
    assert MeanSpeed(t) == 9.75;
  }

  /** A walk of 9000 steps in one hour, 75 kg, 180 cm tall: 5.85 km at
      5.85 km/h and 349.251747525 kcal. */
  lemma SampleWalking()
    ensures var r := ReadPackage("WLK", [9000.0, 1.0, 75.0, 180.0]);
      && r.Success? && Computable(r.value)
      && ShowTrainingInfo(r.value)
         == InfoMessage("SportsWalking", 1.0, 5.85, 5.85, 349.251747525)
  {
    var t := SportsWalking(9000.0, 1.0, 75.0, 1.8);
    assert MeanSpeed(t) == 5.85;
  }

  /** An unknown code fails with a message that names it. */
  lemma SampleUnknownCode()
    ensures ReadPackage("BIKE", [1.0, 1.0, 1.0]) == Failure(UnknownWorkoutType("BIKE"))
    ensures ReadPackage("BIKE", [1.0, 1.0, 1.0]).error.Message()
         == "Unknown workout type: BIKE"
  {
  }

  /** A run with two readings instead of three fails at unpacking. */
  lemma SampleShortRun()
    ensures ReadPackage("RUN", [1.0, 1.0]) == Failure(UnpackMismatch(3, 2))
  {
  }
}
