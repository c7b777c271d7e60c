/** The two result shapes shared by every component of the bank model. */
module Wrappers {
  datatype Option<+T> = None | Some(value: T)

  /** How an HTTP handler ends: with a response, or with an error status and no commit. */
  datatype Outcome<+T> = Done(response: T) | Rejected(status: nat)

  predicate OccursAt(s: string, f: string, i: nat) {
    i + |f| <= |s| && s[i..i + |f|] == f
  }

  /** Python's `f in s` on strings. */
  predicate Contains(s: string, f: string) {
    exists i: nat :: i <= |s| && OccursAt(s, f, i)
  }
}
