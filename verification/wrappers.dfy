/** The optional value used for lookups that may find nothing and for parsers
    that may reject their input. It supports Dafny's `:-` operator. */
module Wrappers {

  datatype Option<+T> = None | Some(value: T) {

    /** A lookup that found nothing or a parse that failed stops a `:-` chain. */
    predicate IsFailure() {
      None?
    }

    /** The stopped chain's result, at the type the enclosing function returns */
    function PropagateFailure<U>(): Option<U>
      requires None?
    {
      None
    }

    /** What a successful step hands to the rest of the chain */
    function Extract(): T
      requires Some?
    {
      value
    }
  }
}
