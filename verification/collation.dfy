/**
 * The comparison the spell maker sorts subgroup names with.
 *
 * The window compares names with the culture-sensitive `string.CompareTo`,
 * whose exact order depends on the current culture. The model therefore
 * never fixes an order: it takes `leq(a, b)` (read "a.CompareTo(b) <= 0")
 * as a parameter and assumes only that it is a total preorder. Two distinct
 * strings may compare equal, so no antisymmetry is assumed.
 */
module Collation {

  /** `leq(a, b)` holds when `a` sorts no later than `b`. */
  type Leq = (string, string) -> bool

  ghost predicate Total(leq: Leq) {
    forall a, b :: leq(a, b) || leq(b, a)
  }

  ghost predicate Transitive(leq: Leq) {
    forall a, b, c :: leq(a, b) && leq(b, c) ==> leq(a, c)
  }

  /** What `CompareTo` guarantees of any culture: a total preorder. */
  ghost predicate TotalPreorder(leq: Leq) {
    Total(leq) && Transitive(leq)
  }

  /** `a` and `b` tie under the collation (`CompareTo` returns 0). */
  ghost predicate Tie(leq: Leq, a: string, b: string) {
    leq(a, b) && leq(b, a)
  }
}
