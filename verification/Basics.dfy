/** Shared value types. */
module Basics {
  datatype Option<+T> = None | Some(value: T)

  /** One element moves from what a loop has to do to what it has done. */
  lemma MoveOne<T>(todo: set<T>, done: set<T>, x: T)
    requires x in todo && todo !! done
    ensures (todo - {x}) + (done + {x}) == todo + done && (todo - {x}) !! (done + {x})
  {
  }

  /** Finitely many numbers leave one unused. */
  lemma {:induction false} SomeUnused(ids: set<nat>) returns (n: nat)
    ensures forall i | i in ids :: i < n
  {
    if ids == {} {
      n := 0;
    } else {
      var i :| i in ids;
      var m := SomeUnused(ids - {i});
      n := if m <= i then i + 1 else m;
      assert forall j | j in ids :: j == i || j in ids - {i};
    }
  }
}
