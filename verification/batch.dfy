/**
 * The batch's last-element flag: the run loop passes `i == n - 1` for the
 * link at index i of a batch of n links.
 */
module Batch {

  /** The flags a batch of n links is given, by position. */
  ghost predicate LastFlags(flags: seq<bool>)
  {
    forall i :: 0 <= i < |flags| ==> flags[i] == (i == |flags| - 1)
  }

  /** How many flags are set. */
  function CountSet(flags: seq<bool>): nat
  {
    if flags == [] then 0
    else CountSet(flags[..|flags| - 1]) + (if flags[|flags| - 1] then 1 else 0)
  }

  /** A sequence of cleared flags has none set. */
  lemma {:induction false} NoneSet(flags: seq<bool>)
    requires forall i :: 0 <= i < |flags| ==> !flags[i]
    ensures CountSet(flags) == 0
  {
    if flags != [] {
      NoneSet(flags[..|flags| - 1]);
    }
  }

  /** Exactly one link of a non-empty batch is flagged last, and none of an empty one. */
  lemma ExactlyOneLast(flags: seq<bool>)
    requires LastFlags(flags)
    ensures CountSet(flags) == if |flags| == 0 then 0 else 1
  {
    if flags != [] {
      NoneSet(flags[..|flags| - 1]);
    }
  }
}
