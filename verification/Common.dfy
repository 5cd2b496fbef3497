/** Vocabulary shared by every model in this project. */
module Common {

  /** A UUID. Only equality matters, except in the work queue, where `str(id)` breaks ties
      and the order of the numbers stands for the order of the fixed-width strings. */
  type Id = nat

  /** A clock reading, in whole units. */
  type Time = int

  datatype Option<+T> = None | Some(value: T)

  datatype Result<+T, +E> = Ok(value: T) | Err(error: E)

  /** `not text.strip()` */
  predicate IsBlank(text: string) {
    forall i :: 0 <= i < |text| ==> text[i] in " \t\n\r"
  }

  ghost predicate Distinct<T(!new)>(s: seq<T>) {
    forall i, j :: 0 <= i < j < |s| ==> s[i] != s[j]
  }

  lemma {:induction false} SubsetSize<T>(a: set<T>, b: set<T>)
    requires a <= b
    ensures |a| <= |b|
  {
    if a != {} {
      var x :| x in a;
      SubsetSize(a - {x}, b - {x});
    }
  }

  /** Distinct elements of a set: as many as the set has only if they are all of it. */
  lemma {:induction false} DistinctSize<T(!new)>(s: seq<T>, u: set<T>)
    requires Distinct(s) && forall i :: 0 <= i < |s| ==> s[i] in u
    ensures |s| <= |u|
    ensures |s| == |u| ==> forall x :: x in u ==> x in s
  {
    if s != [] {
      var front, last := s[..|s| - 1], s[|s| - 1];
      DistinctSize(front, u - {last});
      assert s == front + [last];
    }
  }
}
