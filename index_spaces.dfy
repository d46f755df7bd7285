/**
 * The eight index spaces of a component and the log of the indices handed
 * out in them. Every registration takes the current value of one counter
 * as the new item's index and bumps that counter, so the counter of a
 * space always equals the number of registrations in it so far.
 */
module IndexSpaces {

  /** The builder's eight counters: five core spaces and three component spaces. */
  datatype Space =
    | CoreModules
    | CoreFuncs
    | CoreMemories
    | CoreTables
    | CoreInstances
    | Funcs
    | Instances
    | Types

  /** Number of allocations in space `s` recorded in `log`. */
  function Occurrences(log: seq<Space>, s: Space): nat
    decreases |log|
  {
    if log == [] then 0
    else Occurrences(log[..|log| - 1], s) + (if log[|log| - 1] == s then 1 else 0)
  }

  /** One more allocation in `x` raises the count of `x` by one and no other count. */
  lemma OccurrencesSnoc(log: seq<Space>, x: Space, s: Space)
    ensures Occurrences(log + [x], s) == Occurrences(log, s) + (if x == s then 1 else 0)
  {
    assert (log + [x])[..|log|] == log;
  }

  /** A longer prefix of the log never holds fewer allocations of a space. */
  lemma {:induction false} OccurrencesMonotone(log: seq<Space>, i: nat, j: nat, s: Space)
    requires i <= j <= |log|
    ensures Occurrences(log[..i], s) <= Occurrences(log[..j], s)
    decreases j - i
  {
    if i < j {
      OccurrencesMonotone(log, i, j - 1, s);
      assert log[..j][..j - 1] == log[..j - 1];
    }
  }

  /**
   * The k-th allocation of the log received index Occurrences(log[..k], log[k]).
   * Two allocations in the same space never receive the same index: the
   * later one receives a strictly larger index.
   */
  lemma IndicesDistinct(log: seq<Space>, i: nat, j: nat)
    requires i < j < |log| && log[i] == log[j]
    ensures Occurrences(log[..i], log[i]) < Occurrences(log[..j], log[j])
  {
    assert log[..i + 1][..i] == log[..i];
    OccurrencesMonotone(log, i + 1, j, log[i]);
  }
}
