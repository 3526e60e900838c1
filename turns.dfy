/** Turn order: the engine walks an endless cycle over the player sequence.
    The position in that cycle is an index into the sequence, advanced modulo
    its length. */
module Turns {

  /** The position after `i` in a cycle of `count` players. */
  function NextIndex(i: nat, count: nat): (j: nat)
    requires i < count
    ensures j < count
    ensures j == 0 <==> i == count - 1
    ensures i < count - 1 ==> j == i + 1
  {
    (i + 1) % count
  }

  /** The position reached from `i` after `steps` turns. */
  function Advance(i: nat, count: nat, steps: nat): (j: nat)
    requires i < count
    ensures j < count
  {
    if steps == 0 then i else NextIndex(Advance(i, count, steps - 1), count)
  }

  /** Within one round, the position moves `steps` places and wraps past the
      last player back to the first. */
  lemma {:induction false} AdvanceWithinRound(i: nat, count: nat, steps: nat)
    requires i < count && steps <= count
    ensures Advance(i, count, steps) == if i + steps < count then i + steps else i + steps - count
  {
    if steps > 0 {
      AdvanceWithinRound(i, count, steps - 1);
    }
  }

  /** As many turns as there are players bring the turn back to the same player. */
  lemma FullRoundReturns(i: nat, count: nat)
    requires i < count
    ensures Advance(i, count, count) == i
  {
    AdvanceWithinRound(i, count, count);
  }
}
