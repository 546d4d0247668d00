/** Optional values (Java's nullable references and `Optional`) and results
    (a value or the Java exception that the operation throws). */
module Wrappers {

  datatype Option<+T> = None | Some(value: T)

  /** The exceptions the modelled code throws. */
  datatype Exception =
    | PreconditionException(message: string)   // xfunction's Preconditions.equals
    | NullPointerException
    | IndexOutOfBoundsException
    | CvException                                 // an OpenCV call rejecting its arguments
    | NoKeypointsFoundException(mapIndex: nat, threshold: real)
    | RuntimeException(message: string)

  datatype Result<+T> = Success(value: T) | Failure(error: Exception) {

    predicate IsFailure() {
      Failure?
    }

    function PropagateFailure<U>(): Result<U>
      requires Failure?
    {
      Failure(error)
    }

    function Extract(): T
      requires Success?
    {
      value
    }
  }

  /** Number of `None` entries of `s` (Java: `filter(Predicate.isEqual(null)).count()`). */
  function CountNone<T>(s: seq<Option<T>>): nat
  {
    if s == [] then 0 else CountNone(s[..|s| - 1]) + (if s[|s| - 1].None? then 1 else 0)
  }

  /** Number of `Some` entries of `s`, an independent reference for `CountNone`. */
  function CountSome<T>(s: seq<Option<T>>): nat
  {
    |set i | 0 <= i < |s| && s[i].Some?|
  }

  lemma {:induction false} CountNoneBounded<T>(s: seq<Option<T>>)
    ensures CountNone(s) <= |s|
    ensures CountNone(s) == 0 <==> forall i :: 0 <= i < |s| ==> s[i].Some?
  {
    if s != [] {
      CountNoneBounded(s[..|s| - 1]);
      assert forall i :: 0 <= i < |s| - 1 ==> s[..|s| - 1][i] == s[i];
    }
  }

  /** `CountNone` and `CountSome` partition the sequence. */
  lemma {:induction false} CountNonePlusCountSome<T>(s: seq<Option<T>>)
    ensures CountNone(s) + CountSome(s) == |s|
  {
    if s != [] {
      var n := |s| - 1;
      var init := s[..n];
      CountNonePlusCountSome(init);
      var before := set i | 0 <= i < n && init[i].Some?;
      var after := set i | 0 <= i < |s| && s[i].Some?;
      assert before == set i | 0 <= i < n && s[i].Some?;
      if s[n].Some? {
        assert after == before + {n};
      } else {
        assert after == before;
      }
    }
  }

  /** Two sequences with nulls at the same positions have the same number
      of nulls. */
  lemma {:induction false} CountNoneSamePattern<T, U>(s: seq<Option<T>>, t: seq<Option<U>>)
    requires |s| == |t| && forall i :: 0 <= i < |s| ==> (s[i].None? <==> t[i].None?)
    ensures CountNone(s) == CountNone(t)
  {
    if s != [] {
      var n := |s| - 1;
      assert forall i :: 0 <= i < n ==> s[..n][i] == s[i] && t[..n][i] == t[i];
      CountNoneSamePattern(s[..n], t[..n]);
    }
  }
}
