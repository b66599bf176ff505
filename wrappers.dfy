/** Option and Result datatypes, and prefix and suffix predicates, shared by the modules of this model. */
module Wrappers {

  /** A value that may be missing: Go's nil pointer or nil error. */
  datatype Option<+T> = None | Some(value: T)

  /** Either a value or the error that stopped its computation. */
  datatype Result<+T, +E> = Success(value: T) | Failure(error: E)

  /** `p` is a prefix of `s`. */
  predicate IsPrefix<T(==)>(p: seq<T>, s: seq<T>) {
    |p| <= |s| && s[..|p|] == p
  }

  /** `p` is a suffix of `s`. */
  predicate IsSuffix<T(==)>(p: seq<T>, s: seq<T>) {
    |p| <= |s| && s[|s| - |p|..] == p
  }

}
