/** Shared helpers. */
module Wrappers {

  /** A result that may be missing: a failed parse, a failed operation, or nothing found. */
  datatype Option<+T> = None | Some(value: T)

  ghost predicate Distinct<T>(xs: seq<T>) {
    forall i, j :: 0 <= i < j < |xs| ==> xs[i] != xs[j]
  }

  /** What every step keeps holds from where it first does. */
  lemma {:induction false} Carried(flags: seq<bool>, k: nat, m: nat)
    requires k <= m < |flags| && flags[k] && forall i :: 0 <= i < |flags| - 1 && flags[i] ==> flags[i + 1]
    ensures flags[m]
    decreases m
  {
    if k < m {
      Carried(flags, k, m - 1);
    }
  }
}
