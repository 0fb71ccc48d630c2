/**
 The driver's loop without its printing: each package is read and
 summarised in order, and the first error aborts the whole batch, leaving
 the summaries produced before it.
 */
module Driver {
  import opened Wrappers
  import opened Errors
  import opened Trainings
  import opened Packages

  /** One sensor package: a workout code and its readings. */
  datatype Package = Package(workoutType: string, data: seq<real>)

  /** Reads one package and summarises the session, or gives the error
      either step raises. */
  function ProcessPackage(p: Package): (r: Result<InfoMessage, Error>)
    ensures r.Success? <==>
      ReadPackage(p.workoutType, p.data).Success?
      && Computable(ReadPackage(p.workoutType, p.data).value)
    ensures r.Success? ==>
      r.value == ShowTrainingInfo(ReadPackage(p.workoutType, p.data).value)
    ensures ReadPackage(p.workoutType, p.data).Failure? ==>
      r == Failure(ReadPackage(p.workoutType, p.data).error)
    ensures ReadPackage(p.workoutType, p.data).Success? ==>
      (!Computable(ReadPackage(p.workoutType, p.data).value) ==> r == Failure(ZeroDivision))
  {
    match ReadPackage(p.workoutType, p.data)
    case Failure(e) => Failure(e)
    case Success(t) => TryShowTrainingInfo(t)
  }

  /**
   Processes the packages in order. `shown` holds the summaries of the
   packages before the first failing one (all of them if none fails), and
   `abort` is that package's error.
   */
  method RunPackages(packages: seq<Package>) returns (shown: seq<InfoMessage>, abort: Option<Error>)
    ensures |shown| <= |packages|
    ensures forall i :: 0 <= i < |shown| ==> ProcessPackage(packages[i]) == Success(shown[i])
    ensures abort.None? ==> |shown| == |packages|
    ensures abort.Some? ==>
      |shown| < |packages| && ProcessPackage(packages[|shown|]) == Failure(abort.value)
  {
    shown := [];
    abort := None;
    var i := 0;
    while i < |packages|
      invariant 0 <= i <= |packages|
      invariant |shown| == i
      invariant forall j :: 0 <= j < i ==> ProcessPackage(packages[j]) == Success(shown[j])
    {
      match ProcessPackage(packages[i])
      case Failure(e) =>
        abort := Some(e);
        return;
      case Success(m) =>
        shown := shown + [m];
        i := i + 1;
    }
  }
}
