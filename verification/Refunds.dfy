/**
 The refund attempts of held fundings: numbered from one, at most one in flight, and exactly one
 completed once the funding is refunded, whatever order successes and failures are reported in.
 */
module Refunds {
  import opened Tables
  import opened Sums
  import opened LedgerSpec
  import opened Evolution

  function Attempts(txns: seq<Transaction>, funding: nat): int { SumBy(IsAttempt(funding), txns) }

  function AttemptsIn(txns: seq<Transaction>, funding: nat, status: Status): int {
    SumBy(IsAttemptIn(funding, status), txns)
  }

  ghost predicate FundingOk(txns: seq<Transaction>, f: nat)
    requires f < |txns| && txns[f].Funding?
  {
    match txns[f].status
    case Held => 1 <= Attempts(txns, f) && AttemptsIn(txns, f, Completed) == 0 && AttemptsIn(txns, f, Pending) <= 1
    case Refunded => AttemptsIn(txns, f, Completed) == 1 && AttemptsIn(txns, f, Pending) == 0
    case _ => Attempts(txns, f) == 0
  }

  /** The n-th attempt of a funding carries the number n and the reference made from it. */
  ghost predicate AttemptOk(txns: seq<Transaction>, a: nat)
    requires a < |txns| && txns[a].FundingRefund?
  {
    txns[a].attempt == Attempts(txns[..a], txns[a].reverses) + 1
    && txns[a].reference == RefundReference(txns[a].reverses, txns[a].attempt)
  }

  predicate SameFundingsAttempts(x: Transaction, y: Transaction) {
    x.FundingRefund? && y.FundingRefund? && x.reverses == y.reverses
  }

  /** Only the last attempt of a funding can be in flight. */
  ghost predicate OnlyNewestPending(txns: seq<Transaction>) {
    forall a, b :: 0 <= a < b < |txns| && SameFundingsAttempts(txns[a], txns[b]) ==> txns[a].status != Pending
  }

  /** No attempt becomes pending again, and a new one is made only when none is. */
  lemma NewestStays(before: seq<Transaction>, after: seq<Transaction>)
    requires RowsEvolve(before, after) && OnlyNewestPending(before)
    requires forall k :: |before| <= k < |after| && after[k].FundingRefund? ==>
               k == |before| && forall a :: 0 <= a < k ==> IsAttemptIn(after[k].reverses, Pending)(after[a]) == 0
    ensures OnlyNewestPending(after)
  {
    forall k | 0 <= k < |before|
      ensures after[k].FundingRefund? == before[k].FundingRefund?
      ensures after[k].FundingRefund? ==> after[k].reverses == before[k].reverses
      ensures after[k].FundingRefund? && after[k].status == Pending ==> before[k].status == Pending
    {
      assert CanBecome(before[k], after[k]);
    }
  }

  ghost predicate RefundsOk(txns: seq<Transaction>) {
    && OnlyNewestPending(txns)
    && (forall f :: 0 <= f < |txns| && txns[f].Funding? ==> FundingOk(txns, f))
    && (forall a :: 0 <= a < |txns| && txns[a].FundingRefund? ==> AttemptOk(txns, a))
  }

  /** What the refund rules read of a row. */
  predicate SameForRefunds(before: Transaction, after: Transaction) {
    && (before.FundingRefund? ==> after == before)
    && (before.Funding? ==>
          && (before.status == Held) == (after.status == Held)
          && (before.status == Refunded) == (after.status == Refunded))
  }

  lemma AttemptsGrown(before: seq<Transaction>, after: seq<Transaction>, f: nat)
    requires RowsEvolve(before, after)
    requires forall k :: |before| <= k < |after| ==> IsAttempt(f)(after[k]) == 0
    ensures Attempts(after, f) == Attempts(before, f)
  {
    forall k | 0 <= k < |before|
      ensures IsAttempt(f)(after[k]) == IsAttempt(f)(before[k])
    {
      assert CanBecome(before[k], after[k]);
    }
    SumGrown(IsAttempt(f), before, after);
  }

  lemma AttemptsInGrown(before: seq<Transaction>, after: seq<Transaction>, f: nat, status: Status)
    requires |before| <= |after|
    requires forall k :: 0 <= k < |before| ==> IsAttemptIn(f, status)(after[k]) == IsAttemptIn(f, status)(before[k])
    requires forall k :: |before| <= k < |after| ==> IsAttempt(f)(after[k]) == 0
    ensures AttemptsIn(after, f, status) == AttemptsIn(before, f, status)
  {
    SumGrown(IsAttemptIn(f, status), before, after);
  }

  /** Attempt numbers count earlier rows only, so they survive anything that evolves. */
  lemma AttemptStays(before: seq<Transaction>, after: seq<Transaction>, a: nat)
    requires RowsEvolve(before, after) && a < |before| && before[a].FundingRefund? && AttemptOk(before, a)
    ensures AttemptOk(after, a)
  {
    assert CanBecome(before[a], after[a]);
    forall k | 0 <= k < a
      ensures CanBecome(before[..a][k], after[..a][k])
    {
      assert CanBecome(before[k], after[k]);
    }
    AttemptsGrown(before[..a], after[..a], before[a].reverses);
  }

  /** A funding no attempt row of which was inserted or changed keeps its rules. */
  lemma FundingStays(before: seq<Transaction>, after: seq<Transaction>, f: nat)
    requires RowsEvolve(before, after) && f < |before| && before[f].Funding? && FundingOk(before, f)
    requires SameForRefunds(before[f], after[f])
    requires forall k :: 0 <= k < |before| && IsAttempt(f)(before[k]) == 1 ==> after[k] == before[k]
    requires forall k :: |before| <= k < |after| ==> IsAttempt(f)(after[k]) == 0
    ensures FundingOk(after, f)
  {
    assert CanBecome(before[f], after[f]);
    AttemptsGrown(before, after, f);
    forall status: Status, k | 0 <= k < |before|
      ensures IsAttemptIn(f, status)(after[k]) == IsAttemptIn(f, status)(before[k])
    {
      assert CanBecome(before[k], after[k]);
    }
    AttemptsInGrown(before, after, f, Completed);
    AttemptsInGrown(before, after, f, Pending);
  }

  /** Steps that touch no refund row and hold or refund no funding. */
  lemma RefundsStay(s: State, r: State)
    requires WellFormed(s) && RefundsOk(s.txns) && RowsEvolve(s.txns, r.txns)
    requires forall k :: 0 <= k < |s.txns| ==> SameForRefunds(s.txns[k], r.txns[k])
    requires forall k :: |s.txns| <= k < |r.txns| ==>
               !r.txns[k].FundingRefund? && (r.txns[k].Funding? ==> r.txns[k].status == Pending)
    ensures RefundsOk(r.txns)
  {
    NewestStays(s.txns, r.txns);
    forall f | 0 <= f < |r.txns| && r.txns[f].Funding?
      ensures FundingOk(r.txns, f)
    {
      if f < |s.txns| {
        assert CanBecome(s.txns[f], r.txns[f]);
        FundingStays(s.txns, r.txns, f);
      } else {
        NoAttemptsAhead(s, f);
        AttemptsGrown(s.txns, r.txns, f);
      }
    }
    forall a | 0 <= a < |r.txns| && r.txns[a].FundingRefund?
      ensures AttemptOk(r.txns, a)
    {
      assert CanBecome(s.txns[a], r.txns[a]);
      AttemptStays(s.txns, r.txns, a);
    }
  }

  lemma NoAttemptsAhead(s: State, f: nat)
    requires WellFormed(s) && |s.txns| <= f
    ensures Attempts(s.txns, f) == 0
  {
    forall k | 0 <= k < |s.txns|
      ensures IsAttempt(f)(s.txns[k]) == 0
    {
      assert RowOk(s.txns, |s.books.balances|, k);
    }
    SumZero(IsAttempt(f), s.txns);
  }

  lemma CountsNonNegative(txns: seq<Transaction>, f: nat, status: Status)
    ensures 0 <= AttemptsIn(txns, f, status) <= Attempts(txns, f)
  {
    SumNonNegative(IsAttemptIn(f, status), txns);
    SumMonotone(txns, f, status);
  }

  lemma {:induction false} SumMonotone(txns: seq<Transaction>, f: nat, status: Status)
    ensures AttemptsIn(txns, f, status) <= Attempts(txns, f)
  {
    if txns != [] {
      SumMonotone(txns[..|txns| - 1], f, status);
    }
  }

  // ----- The effects on refund rows -----

  lemma NonePending(txns: seq<Transaction>, f: nat)
    requires AttemptsIn(txns, f, Pending) == 0
    ensures forall a :: 0 <= a < |txns| ==> IsAttemptIn(f, Pending)(txns[a]) == 0
  {
    forall a | 0 <= a < |txns|
      ensures IsAttemptIn(f, Pending)(txns[a]) == 0
    {
      SumAtLeastMember(IsAttemptIn(f, Pending), txns, a);
    }
  }

  /** A new attempt of a held funding with none in flight, or the first one of a funding being held. */
  lemma AttemptInsertedKeeps(s: State, f: nat, row: Transaction)
    requires WellFormed(s) && f < |s.txns| && s.txns[f].Funding? && s.txns[f].status == Held
    requires forall k :: 0 <= k < |s.txns| && k != f && s.txns[k].Funding? ==> FundingOk(s.txns, k)
    requires forall a :: 0 <= a < |s.txns| && s.txns[a].FundingRefund? ==> AttemptOk(s.txns, a)
    requires AttemptsIn(s.txns, f, Completed) == 0 && AttemptsIn(s.txns, f, Pending) == 0 && OnlyNewestPending(s.txns)
    requires row.FundingRefund? && row.status == Pending && row.reverses == f
    requires row.attempt == Attempts(s.txns, f) + 1 && row.reference == RefundReference(f, row.attempt)
    ensures RefundsOk(Inserted(s, row).txns)
  {
    var txns := s.txns + [row];
    assert RowsEvolve(s.txns, txns);
    NonePending(s.txns, f);
    NewestStays(s.txns, txns);
    forall k | 0 <= k < |txns| && txns[k].Funding?
      ensures FundingOk(txns, k)
    {
      if k == f {
        SumAppend(IsAttempt(f), s.txns, row);
        SumAppend(IsAttemptIn(f, Completed), s.txns, row);
        SumAppend(IsAttemptIn(f, Pending), s.txns, row);
        SumNonNegative(IsAttempt(f), s.txns);
      } else {
        FundingStays(s.txns, txns, k);
      }
    }
    forall a | 0 <= a < |txns| && txns[a].FundingRefund?
      ensures AttemptOk(txns, a)
    {
      if a < |s.txns| {
        AttemptStays(s.txns, txns, a);
      } else {
        assert txns[..a] == s.txns;
      }
    }
  }

  lemma RefundStartedKeeps(s: State, f: nat, now: int)
    requires WellFormed(s) && RefundsOk(s.txns) && f < |s.txns| && s.txns[f].Funding? && s.txns[f].status == Held
    requires forall a :: 0 <= a < |s.txns| ==> IsAttemptIn(f, Pending)(s.txns[a]) != 1
    ensures 0 <= Attempts(s.txns, f)
    ensures RefundsOk(Inserted(s, RefundAttempt(s, f, Attempts(s.txns, f) + 1, now)).txns)
  {
    SumNonNegative(IsAttempt(f), s.txns);
    SumZero(IsAttemptIn(f, Pending), s.txns);
    assert FundingOk(s.txns, f);
    AttemptInsertedKeeps(s, f, RefundAttempt(s, f, Attempts(s.txns, f) + 1, now));
  }

  lemma FundingHeldKeeps(s: State, t: nat, fee: int, now: int)
    requires WellFormed(s) && RefundsOk(s.txns) && t < |s.txns| && s.txns[t].Funding? && s.txns[t].status == Pending
             && 0 <= fee
    ensures RefundsOk(FundingHeld(s, t, fee, now).txns)
  {
    var claimed := Claimed(s, t, Held, fee);
    ClaimedEvolves(s, t, Held, fee);
    PostedKeeps(claimed, t);
    assert FundingOk(s.txns, t);
    AttemptsGrown(s.txns, claimed.txns, t);
    CountsNonNegative(claimed.txns, t, Completed);
    CountsNonNegative(claimed.txns, t, Pending);
    forall k | 0 <= k < |s.txns| && k != t && s.txns[k].Funding?
      ensures FundingOk(claimed.txns, k)
    {
      FundingStays(s.txns, claimed.txns, k);
    }
    forall a | 0 <= a < |s.txns| && s.txns[a].FundingRefund?
      ensures AttemptOk(claimed.txns, a)
    {
      AttemptStays(s.txns, claimed.txns, a);
    }
    NewestStays(s.txns, claimed.txns);
    AttemptInsertedKeeps(Posted(claimed, t), t, RefundAttempt(s, t, 1, now));
  }

  /** Settling leaves exactly one completed attempt and none in flight. */
  lemma SettledCounts(txns: seq<Transaction>, a: nat, f: nat)
    requires a < |txns| && txns[a].FundingRefund? && txns[a].reverses == f && txns[a].status in {Pending, Failed}
    requires f < |txns| && txns[f].Funding?
    ensures AttemptsIn(Settled(txns, a, f), f, Completed) == AttemptsIn(txns, f, Completed) + 1
    ensures AttemptsIn(Settled(txns, a, f), f, Pending) == 0
  {
    var claimed := txns[a := WithStatus(txns[a], Completed)];
    var refunded := claimed[f := WithStatus(claimed[f], Refunded)];
    SumUpdate(IsAttemptIn(f, Completed), txns, a, claimed[a]);
    SumUpdate(IsAttemptIn(f, Completed), claimed, f, refunded[f]);
    SumPointwise(IsAttemptIn(f, Completed), refunded, Supersede(refunded, f));
    SumZero(IsAttemptIn(f, Pending), Supersede(refunded, f));
  }

  lemma SettledKeeps(txns: seq<Transaction>, a: nat, f: nat)
    requires RefundsOk(txns) && a < |txns| && txns[a].FundingRefund? && txns[a].status in {Pending, Failed}
    requires txns[a].reverses == f && f < |txns| && txns[f].Funding? && txns[f].status == Held
    ensures RefundsOk(Settled(txns, a, f))
  {
    var after := Settled(txns, a, f);
    SettledCounts(txns, a, f);
    assert FundingOk(txns, f);
    forall t | 0 <= t < |txns|
      ensures CanBecome(txns[t], after[t]) && (t != f && IsAttempt(f)(txns[t]) == 0 ==> after[t] == txns[t])
    {
    }
    NewestStays(txns, after);
    forall k | 0 <= k < |after| && after[k].Funding?
      ensures FundingOk(after, k)
    {
      if k != f {
        FundingStays(txns, after, k);
      }
    }
    forall k | 0 <= k < |after| && after[k].FundingRefund?
      ensures AttemptOk(after, k)
    {
      AttemptStays(txns, after, k);
    }
  }

  lemma RefundSettledKeeps(s: State, a: nat)
    requires WellFormed(s) && RefundsOk(s.txns) && a < |s.txns| && s.txns[a].FundingRefund?
             && s.txns[a].status in {Pending, Failed}
    requires RowOk(s.txns, |s.books.balances|, a) && s.txns[s.txns[a].reverses].status == Held
    ensures RefundsOk(RefundSettled(s, a).txns)
  {
    SettledKeeps(s.txns, a, s.txns[a].reverses);
  }

  lemma RefundFailedKeeps(s: State, a: nat)
    requires WellFormed(s) && RefundsOk(s.txns) && a < |s.txns| && s.txns[a].FundingRefund?
             && s.txns[a].status == Pending
    ensures RefundsOk(Restatus(s, a, Failed).txns)
  {
    var row := WithStatus(s.txns[a], Failed);
    var txns := s.txns[a := row];
    var f := s.txns[a].reverses;
    assert RowsEvolve(s.txns, txns);
    NewestStays(s.txns, txns);
    forall k | 0 <= k < |txns| && txns[k].Funding?
      ensures FundingOk(txns, k)
    {
      if k == f {
        assert FundingOk(s.txns, f);
        SumUpdate(IsAttempt(f), s.txns, a, row);
        SumUpdate(IsAttemptIn(f, Completed), s.txns, a, row);
        SumUpdate(IsAttemptIn(f, Pending), s.txns, a, row);
        CountsNonNegative(txns, f, Pending);
      } else {
        FundingStays(s.txns, txns, k);
      }
    }
    forall k | 0 <= k < |txns| && txns[k].FundingRefund?
      ensures AttemptOk(txns, k)
    {
      AttemptStays(s.txns, txns, k);
    }
  }

  // ----- What the rules mean -----

  /** A refunded funding has one completed attempt, and every other attempt failed. */
  lemma RefundedOnce(s: State, a: nat, b: nat)
    requires WellFormed(s) && RefundsOk(s.txns) && a < |s.txns| && b < |s.txns|
    requires s.txns[a].FundingRefund? && s.txns[b].FundingRefund? && s.txns[a].reverses == s.txns[b].reverses
    requires s.txns[a].status == Completed && s.txns[b].status == Completed
    ensures a == b
  {
    assert RowOk(s.txns, |s.books.balances|, a);
    var f := s.txns[a].reverses;
    assert FundingOk(s.txns, f);
    CountsNonNegative(s.txns, f, Completed);
    if a < b {
      SumAtLeastPair(IsAttemptIn(f, Completed), s.txns, a, b);
    } else if b < a {
      SumAtLeastPair(IsAttemptIn(f, Completed), s.txns, b, a);
    }
  }

  /**
   A success reported for an attempt that did not complete, once its funding is refunded: nothing is
   posted and the alert condition holds. Reported again for the completed attempt, nothing is posted and
   nobody is alerted.
   */
  lemma LateSuccessAlertsAndPostsNothing(s: State, reference: string, reported: int)
    requires WellFormed(s) && RefundsOk(s.txns)
    requires Find(s.txns, reference).Some? && s.txns[Find(s.txns, reference).value].FundingRefund?
    requires RowOk(s.txns, |s.books.balances|, Find(s.txns, reference).value)
    requires s.txns[s.txns[Find(s.txns, reference).value].reverses].status == Refunded
    ensures SettleRefund(s, reference, reported) == (s, Nothing)
    ensures LateSuccessAlert(s, reference) <==> s.txns[Find(s.txns, reference).value].status == Failed
  {
    var a := Find(s.txns, reference).value;
    var f := s.txns[a].reverses;
    assert FundingOk(s.txns, f);
    if s.txns[a].status == Pending {
      CountsNonNegative(s.txns, f, Pending);
      SumAtLeastMember(IsAttemptIn(f, Pending), s.txns, a);
    }
  }
}
