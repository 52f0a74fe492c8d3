/** Exact-match linear search over a slice of strings. */
module Search {

  /** The pair of values the search returns: an index and whether it was found. */
  datatype FindResult = FindResult(index: int, found: bool)

  /** The scan from position `i` on: the first position at or after `i`
      holding `val`, or index -1 with `found` unset when there is none. */
  function FindFrom(slice: seq<string>, val: string, i: nat): (r: FindResult)
    requires i <= |slice|
    ensures r.found <==> val in slice[i..]
    ensures r.found ==> i <= r.index < |slice| && slice[r.index] == val
    ensures r.found ==> forall j :: i <= j < r.index ==> slice[j] != val
    ensures !r.found ==> r.index == -1
    decreases |slice| - i
  {
    if i == |slice| then FindResult(-1, false)
    else if slice[i] == val then FindResult(i, true)
    else FindFrom(slice, val, i + 1)
  }

  /** The index of the first element of `slice` equal to `val`, with `found`
      set; index -1 with `found` unset when no element is equal to it.
      Equality is exact, character by character, so the match is
      case-sensitive. */
  function Find(slice: seq<string>, val: string): (r: FindResult)
    ensures r.found <==> val in slice
    ensures r.found ==> 0 <= r.index < |slice| && slice[r.index] == val
    ensures r.found ==> forall j :: 0 <= j < r.index ==> slice[j] != val
    ensures !r.found ==> r.index == -1
  {
    assert slice[0..] == slice;
    FindFrom(slice, val, 0)
  }
}
