/**
 Reading a sensor package: a workout code and a flat list of readings become
 one session of the matching kind, or an error.

 The readings are unpacked by position (action, duration, weight, then the
 height in centimetres or the pool length and pool count), so a list of the
 wrong length is an error rather than being cut short or padded.
 */
module Packages {
  import opened Wrappers
  import opened Errors
  import opened Trainings

  /** The three codes the reader knows. */
  predicate IsKnownCode(code: string) {
    code == "RUN" || code == "WLK" || code == "SWM"
  }

  /** How many readings the unpacking for a known code takes. */
  function Arity(code: string): nat
    requires IsKnownCode(code)
  {
    if code == "RUN" then 3 else if code == "WLK" then 4 else 5
  }

  /** The code under which a session of this kind is sent. */
  function CodeOf(t: Training): (code: string)
    ensures IsKnownCode(code)
  {
    match t
    case Running(_, _, _) => "RUN"
    case SportsWalking(_, _, _, _) => "WLK"
    case Swimming(_, _, _, _, _) => "SWM"
  }

  /** The readings a sensor sends for this session, height back in
      centimetres. */
  function DataOf(t: Training): (data: seq<real>)
    ensures |data| == Arity(CodeOf(t))
    ensures data[0] == t.action && data[1] == t.duration && data[2] == t.weight
  {
    match t
    case Running(a, d, w) => [a, d, w]
    case SportsWalking(a, d, w, h) => [a, d, w, h * CmInM]
    case Swimming(a, d, w, l, c) => [a, d, w, l, c]
  }

  /**
   Builds the session a package describes. An unknown code fails naming
   that code; a known code with the wrong number of readings fails with
   the expected and actual counts. On success the session's code and
   readings are exactly the package's, so nothing is dropped or invented.
   */
  function ReadPackage(workoutType: string, data: seq<real>): (r: Result<Training, Error>)
    ensures r.Success? <==> IsKnownCode(workoutType) && |data| == Arity(workoutType)
    ensures !IsKnownCode(workoutType) ==> r == Failure(UnknownWorkoutType(workoutType))
    ensures r.Failure? && r.error.UnknownWorkoutType? ==>
      r.error.Message()[|UnknownTypePrefix|..] == workoutType
    ensures IsKnownCode(workoutType) && |data| != Arity(workoutType) ==>
      r == Failure(UnpackMismatch(Arity(workoutType), |data|))
    ensures r.Success? ==> CodeOf(r.value) == workoutType && DataOf(r.value) == data
    ensures r.Failure? ==> r.error.IsValueError()
  {
    if workoutType == "RUN" then
      if |data| != 3 then Failure(UnpackMismatch(3, |data|))
      else Success(Running(data[0], data[1], data[2]))
    else if workoutType == "WLK" then
      if |data| != 4 then Failure(UnpackMismatch(4, |data|))
      else Success(NewSportsWalking(data[0], data[1], data[2], data[3]))
    else if workoutType == "SWM" then
      if |data| != 5 then Failure(UnpackMismatch(5, |data|))
      else Success(Swimming(data[0], data[1], data[2], data[3], data[4]))
    else
      Failure(UnknownWorkoutType(workoutType))
  }

  /** Every session is read back from its own code and readings. */
  lemma ReadPackageOfDataOf(t: Training)
    ensures ReadPackage(CodeOf(t), DataOf(t)) == Success(t)
  {
    match t
    case SportsWalking(a, d, w, h) =>
      assert h * CmInM / CmInM == h;
    case _ =>
  }

  /** Reading a package is one-to-one: two packages that read as the same
      session are the same package. */
  lemma ReadPackageInjective(c1: string, d1: seq<real>, c2: string, d2: seq<real>)
    requires ReadPackage(c1, d1).Success? && ReadPackage(c1, d1) == ReadPackage(c2, d2)
    ensures c1 == c2 && d1 == d2
  {
  }

  /** The code decides the kind, and the summary's type name follows it:
      RUN is Running, WLK is SportsWalking, SWM is Swimming. */
  lemma CodeDeterminesTypeName(code: string, data: seq<real>)
    requires ReadPackage(code, data).Success?
    ensures code == "RUN" <==> TypeName(ReadPackage(code, data).value) == "Running"
    ensures code == "WLK" <==> TypeName(ReadPackage(code, data).value) == "SportsWalking"
    ensures code == "SWM" <==> TypeName(ReadPackage(code, data).value) == "Swimming"
  {
  }
}
