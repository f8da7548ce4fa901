/** Shared by all parts of the model. */
module Basics {
  datatype Option<+T> = None | Some(value: T)

  /** There is always a number that is not in use. */
  lemma {:induction false} FreshNumber(used: set<nat>) returns (n: nat)
    ensures forall x :: x in used ==> x < n
  {
    n := 0;
    if used != {} {
      var x :| x in used;
      var m := FreshNumber(used - {x});
      n := if x < m then m else x + 1;
      assert forall y :: y in used ==> y == x || y in used - {x};
    }
  }

  /** There is always a name that is not in use. */
  lemma {:induction false} FreshName(used: set<string>) returns (name: string)
    ensures forall x :: x in used ==> |x| < |name|
    ensures name !in used
  {
    name := "n";
    if used != {} {
      var x :| x in used;
      name := FreshName(used - {x});
      name := if |x| < |name| then name else x + "n";
    }
  }
}
