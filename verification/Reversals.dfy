/** A withdrawal is reversed exactly when one compensating row exists for it. */
module Reversals {
  import opened Tables
  import opened Sums
  import opened LedgerSpec
  import opened Evolution

  function ReversalOf(withdrawal: nat): Transaction -> int {
    (t: Transaction) => if t.WithdrawalReversal? && t.reverses == withdrawal then 1 else 0
  }

  ghost predicate ReversalsOk(txns: seq<Transaction>) {
    forall w :: 0 <= w < |txns| && txns[w].Withdrawal? ==>
      SumBy(ReversalOf(w), txns) == if txns[w].status == Reversed then 1 else 0
  }

  /** Steps that reverse no withdrawal. */
  lemma ReversalsStay(before: seq<Transaction>, after: seq<Transaction>, accounts: nat)
    requires RowsOk(before, accounts) && ReversalsOk(before) && RowsEvolve(before, after)
    requires forall k :: 0 <= k < |before| && before[k].Withdrawal? ==>
             (before[k].status == Reversed) == (after[k].status == Reversed)
    requires forall k :: |before| <= k < |after| ==>
               !after[k].WithdrawalReversal? && (after[k].Withdrawal? ==> after[k].status == Pending)
    ensures ReversalsOk(after)
  {
    forall w | 0 <= w < |after| && after[w].Withdrawal?
      ensures SumBy(ReversalOf(w), after) == if after[w].status == Reversed then 1 else 0
    {
      forall k | 0 <= k < |before|
        ensures ReversalOf(w)(after[k]) == ReversalOf(w)(before[k]) && RowOk(before, accounts, k)
      {
        assert CanBecome(before[k], after[k]);
      }
      SumGrown(ReversalOf(w), before, after);
      if w < |before| {
        assert CanBecome(before[w], after[w]);
      } else {
        SumZero(ReversalOf(w), before);
      }
    }
  }

  lemma ReversingKeeps(txns: seq<Transaction>, accounts: nat, t: nat, row: Transaction)
    requires RowsOk(txns, accounts) && ReversalsOk(txns) && t < |txns| && txns[t].Withdrawal?
             && txns[t].status == Pending
    requires row.WithdrawalReversal? && row.reverses == t
    ensures ReversalsOk(txns[t := WithStatus(txns[t], Reversed)] + [row])
  {
    var after := txns[t := WithStatus(txns[t], Reversed)] + [row];
    forall w | 0 <= w < |after| && after[w].Withdrawal?
      ensures SumBy(ReversalOf(w), after) == if after[w].status == Reversed then 1 else 0
    {
      SumUpdateAppend(ReversalOf(w), txns, t, WithStatus(txns[t], Reversed), row);
    }
  }
}
