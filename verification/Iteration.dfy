/** Iterating over unordered containers. */
module Iteration {

  /** The next key of an iteration over an unordered container: any of those still to come. */
  method Pick<T>(keys: set<T>) returns (k: T)
    requires keys != {}
    ensures k in keys
  {
    k :| k in keys;
  }
}
