/** Small shared vocabulary: optional values and the outcome of an operation that may be refused. */
module Prelude {
  datatype Option<+T> = None | Some(value: T)

  datatype Result<+T, +E> = Ok(value: T) | Err(error: E)

  predicate NoRepeats<T(==)>(s: seq<T>) {
    forall i, j :: 0 <= i < j < |s| ==> s[i] != s[j]
  }

  // The first element a query accepts.
  function FirstSuch<T>(s: seq<T>, accepts: T -> bool): (r: Option<T>)
    ensures r.Some? ==> exists i :: 0 <= i < |s| && s[i] == r.value && accepts(s[i]) && forall j :: 0 <= j < i ==> !accepts(s[j])
    ensures r.None? ==> forall x :: x in s ==> !accepts(x)
  {
    if s == [] then None
    else if accepts(s[0]) then Some(s[0])
    else
      var rest := FirstSuch(s[1..], accepts);
      assert forall k :: 0 <= k < |s| - 1 ==> s[1..][k] == s[k + 1];
      assert rest.Some? ==>
        (var i :| 0 <= i < |s[1..]| && s[1..][i] == rest.value && accepts(s[1..][i]) && forall j :: 0 <= j < i ==> !accepts(s[1..][j]);
         s[i + 1] == rest.value && accepts(s[i + 1]) && forall j :: 0 <= j < i + 1 ==> !accepts(s[j]));
      rest
  }

  lemma {:induction false} FirstIs<T>(s: seq<T>, accepts: T -> bool, i: nat)
    requires i < |s| && accepts(s[i]) && forall j :: 0 <= j < i ==> !accepts(s[j])
    ensures FirstSuch(s, accepts) == Some(s[i])
  {
    if i > 0 {
      assert forall k :: 0 <= k < |s| - 1 ==> s[1..][k] == s[k + 1];
      FirstIs(s[1..], accepts, i - 1);
    }
  }

  function Max(a: int, b: int): int {
    if a < b then b else a
  }

  function Min(a: int, b: int): int {
    if a < b then a else b
  }
}
