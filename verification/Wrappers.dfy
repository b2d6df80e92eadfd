/** The failure-free and failure-carrying result types shared by every component. */
module Wrappers {

  datatype Option<+T> = None | Some(value: T)

  datatype Result<+T, +E> = Ok(value: T) | Err(error: E)

  // A write can commit and return, commit and raise, or raise without committing.
  datatype SaveOutcome = Saved | SavedThenRaised | NotSaved

  // `[x for x in s if keep(x)]`
  function Filter<T>(keep: T -> bool, s: seq<T>): seq<T> {
    if s == [] then [] else (if keep(s[0]) then [s[0]] else []) + Filter(keep, s[1..])
  }

  lemma FilterStep<T>(keep: T -> bool, s: seq<T>)
    requires s != []
    ensures Filter(keep, s) == (if keep(s[0]) then [s[0]] else []) + Filter(keep, s[1..])
  {}

  lemma {:induction false} FilterKeeps<T>(keep: T -> bool, s: seq<T>)
    ensures forall x :: x in Filter(keep, s) <==> x in s && keep(x)
    ensures (forall x | x in s :: keep(x)) ==> Filter(keep, s) == s
  {
    if s != [] {
      FilterKeeps(keep, s[1..]);
      assert s == [s[0]] + s[1..];
    }
  }
}
