/** Shared vocabulary: optional values, the outcome of a call, the elements of a list, label selectors. */
module Basics {
  datatype Option<+T> = None | Some(value: T)

  /** A call that failed or timed out may still have taken effect. */
  datatype Outcome = Ok | Fail(applied: bool) | Timeout(applied: bool)

  predicate TookEffect(o: Outcome) {
    o.Ok? || o.applied
  }

  function Elements<T(==)>(s: seq<T>): set<T> {
    set x | x in s
  }

  type Labels = map<string, string>

  /** Every label of the selector is on the node, with the same value. */
  predicate MatchesSelector(selector: Labels, labels: Labels) {
    forall k :: k in selector ==> k in labels && labels[k] == selector[k]
  }
}
