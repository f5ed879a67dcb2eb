/** Vocabulary shared by both wardens: optional values, outcomes, and sequence helpers. */
module Basics {

  datatype Option<+T> = None | Some(value: T)

  // Error numbers of the POSIX/Linux build.
  const EBADF := 9
  const EAGAIN := 11
  const ETIME := 62
  const EINPROGRESS := 115
  const ECANCELED := 125

  /** outcome<R>: an error code (zero for none) and an optional value. */
  datatype Outcome = Outcome(error: int, result: Option<int>) {
    /** operator=(R): a value replaces any earlier error. */
    function AssignValue(v: int): Outcome {
      Outcome(0, Some(v))
    }

    /** operator=(outcome<void>): an error replaces any earlier value. */
    function AssignError(code: int): Outcome {
      Outcome(code, None)
    }
  }

  const FRESH_OUTCOME := Outcome(0, None)

  /** What the awaiting coroutine gets back from await_resume. */
  datatype Reply = Returned(value: int) | ReturnedVoid | ThrewTimeout | ThrewSystem(code: int) | ThrewEmpty

  /** outcome::value for a completion<void> (isVoid) or for a completion that returns something. */
  function AwaitResume(isVoid: bool, o: Outcome): Reply {
    if o.error != 0 then
      if o.error == ETIME then ThrewTimeout else ThrewSystem(o.error)
    else if isVoid then ReturnedVoid
    else match o.result
      case Some(v) => Returned(v)
      case None => ThrewEmpty
  }

  /** std::erase: every occurrence of x goes, the rest keep their order. */
  function Erase<T(==, !new)>(s: seq<T>, x: T): (r: seq<T>)
    ensures multiset(r) == multiset(s)[x := 0]
    ensures x !in s ==> r == s
  {
    if s == [] then []
    else
      assert s == [s[0]] + s[1..];
      if s[0] == x then Erase(s[1..], x) else [s[0]] + Erase(s[1..], x)
  }

  function RemoveAt<T>(s: seq<T>, i: nat): (r: seq<T>)
    requires i < |s|
    ensures |r| == |s| - 1
    ensures multiset(s) == multiset(r) + multiset{s[i]}
  {
    assert s == s[..i] + [s[i]] + s[i + 1..];
    s[..i] + s[i + 1..]
  }
}
