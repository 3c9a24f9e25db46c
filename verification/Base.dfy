/** Small value types and facts shared by every module. */
module Base {
  datatype Option<+T> = None | Some(value: T)

  datatype Result<+T, +E> = Ok(value: T) | Err(error: E)

  /** A number above all those in use. */
  lemma {:induction false} UnusedNumber(used: set<nat>) returns (n: nat)
    ensures forall k :: k in used ==> k < n
    decreases used
  {
    n := 0;
    if used != {} {
      var k :| k in used;
      var rest := UnusedNumber(used - {k});
      n := if rest > k then rest else k + 1;
      forall j | j in used
        ensures j < n
      {
        assert j == k || j in used - {k};
      }
    }
  }
}
