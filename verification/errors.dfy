/**
 The exceptions the workout model can raise, as values.

 - UnknownWorkoutType: `read_package` was given a code it does not know
   (a Python `ValueError`).
 - UnpackMismatch: the data list had the wrong number of values for the
   tuple unpacking of a known code (also a Python `ValueError`).
 - ZeroDivision: a metric divided by a zero duration or a zero height
   (a Python `ZeroDivisionError`).
 */
module Errors {

  const UnknownTypePrefix: string := "Unknown workout type: "

  datatype Error =
    | UnknownWorkoutType(workoutType: string)
    | UnpackMismatch(expected: nat, got: nat)
    | ZeroDivision
  {
    /** Both reading errors surface in Python as `ValueError`. */
    predicate IsValueError() {
      UnknownWorkoutType? || UnpackMismatch?
    }

    /** The message the program itself writes into the error; the other
        errors carry the interpreter's own text. */
    function Message(): string
      requires UnknownWorkoutType?
    {
      UnknownTypeMessage(workoutType)
    }
  }

  /** The text of the error raised for an unknown code. */
  function UnknownTypeMessage(code: string): (msg: string)
    ensures |msg| == |UnknownTypePrefix| + |code|
    ensures msg[..|UnknownTypePrefix|] == UnknownTypePrefix
    ensures msg[|UnknownTypePrefix|..] == code
  {
    UnknownTypePrefix + code
  }

  /** The message of an unknown-code error identifies the code: different
      codes never give the same message. */
  lemma UnknownTypeMessageInjective(a: string, b: string)
    requires UnknownTypeMessage(a) == UnknownTypeMessage(b)
    ensures a == b
  {
    assert a == UnknownTypeMessage(a)[|UnknownTypePrefix|..];
  }
}
