/**
  Simplifiers, as far as the composition engine sees them: objects it can
  hold and chain. What `chain` does when applied is not part of this model,
  so a chain is an uninterpreted pair that records its argument order.
 */
module Simplifiers {

  datatype Simplifier =
    | Simplifier(id: nat)
    | Chain(first: Simplifier, second: Simplifier)

  /** The method simplify, as implemented by each simplifier object (chains included). */
  type Simplify = (Simplifier, string) -> string

  /**
    The reading of chain(first, second) under which it runs `first` on the
    input and `second` on the result. Only used as a hypothesis.
   */
  ghost predicate ChainRunsFirstArgumentFirst(simplify: Simplify)
  {
    forall first, second, input :: simplify(Chain(first, second), input) == simplify(second, simplify(first, input))
  }

}
