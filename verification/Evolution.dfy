/**
 What no transaction ever undoes: the schema's constraints, the immutable columns, the one-way status
 changes of each row, the append-only entries, and the tier.
 */
module Evolution {
  import opened Tables
  import opened Postings
  import opened Kyc
  import opened LedgerSpec

  /** The columns written once at insertion agree. */
  predicate SameRow(before: Transaction, after: Transaction) {
    if before.Funding? then after.Funding? && after.(status := before.status, gross := before.gross) == before
    else if before.FundingRefund? || before.Withdrawal? then WithStatus(after, before.status) == before
    else after == before
  }

  /** The status changes a row can go through, in one step or in many. */
  predicate CanBecome(before: Transaction, after: Transaction) {
    && SameRow(before, after)
    && (before.Funding? ==>
          && (before.status != Pending ==> after.gross == before.gross)
          && match before.status
             case Pending => true
             case Held => after.status in {Held, Refunded}
             case Completed => IsCredited(after.status)
             case Disputed => IsCredited(after.status)
             case Reversed => IsCredited(after.status)
             case Failed => after.status == Failed
             case Refunded => after.status == Refunded)
    && (before.FundingRefund? ==>
          match before.status
          case Completed => after.status == Completed
          case Failed => after.status in {Failed, Completed}
          case Pending => true
          case _ => after.status == before.status)
    && (before.Withdrawal? && before.status != Pending ==> after.status == before.status)
  }

  ghost predicate RowsEvolve(before: seq<Transaction>, after: seq<Transaction>) {
    |before| <= |after| && forall t :: 0 <= t < |before| ==> CanBecome(before[t], after[t])
  }

  predicate DisputeCanBecome(before: Dispute, after: Dispute) {
    after.(status := before.status) == before && (before.status != Open ==> after == before)
  }

  /** A request is decided once: paid, cancelled or declined, it never changes again. */
  predicate RequestCanBecome(before: MoneyRequest, after: MoneyRequest) {
    && after.(status := before.status, transactionId := before.transactionId) == before
    && (before.status != Outstanding ==> after == before)
  }

  ghost predicate Evolves(s: State, r: State) {
    && RowsEvolve(s.txns, r.txns)
    && s.books.entries <= r.books.entries
    && |s.users| <= |r.users|
    && (forall u :: 0 <= u < |s.users| ==> TierRank(s.users[u].tier) <= TierRank(r.users[u].tier))
    && |s.disputes| <= |r.disputes|
    && (forall d :: 0 <= d < |s.disputes| ==> DisputeCanBecome(s.disputes[d], r.disputes[d]))
    && |s.requests| <= |r.requests|
    && (forall q :: 0 <= q < |s.requests| ==> RequestCanBecome(s.requests[q], r.requests[q]))
    && r.limits == s.limits
  }

  lemma EvolvesTransitive(a: State, b: State, c: State)
    requires Evolves(a, b) && Evolves(b, c)
    ensures Evolves(a, c)
  {
  }

  lemma {:induction false} PostAppends(b: Books, txn: nat, legs: seq<Leg>)
    requires AccountsExist(b.balances, legs)
    ensures b.entries <= Post(b, txn, legs).entries
  {
    if legs != [] {
      PostAppends(b, txn, legs[..|legs| - 1]);
    }
  }

  /** Rows keep their constraints when rows they refer to only evolve. */
  lemma RowOkEvolves(before: seq<Transaction>, after: seq<Transaction>, accounts: nat, t: nat)
    requires t < |before| && RowsEvolve(before, after) && RowOk(before, accounts, t)
    requires after[t] == before[t]
    ensures RowOk(after, accounts, t)
  {
  }

  /** One row advances. */
  lemma RowAdvances(s: State, t: nat, row: Transaction)
    requires WellFormed(s) && t < |s.txns| && CanBecome(s.txns[t], row)
    requires RowOk(s.txns[t := row], |s.books.balances|, t)
    ensures WellFormed(s.(txns := s.txns[t := row])) && Evolves(s, s.(txns := s.txns[t := row]))
  {
    var txns := s.txns[t := row];
    assert RowsEvolve(s.txns, txns);
    forall k | 0 <= k < |txns| && k != t
      ensures RowOk(txns, |s.books.balances|, k)
    {
      RowOkEvolves(s.txns, txns, |s.books.balances|, k);
    }
    assert forall k :: 0 <= k < |txns| ==> txns[k].reference == s.txns[k].reference;
  }

  lemma StatusAdvances(s: State, t: nat, status: Status)
    requires WellFormed(s) && t < |s.txns| && CanBecome(s.txns[t], WithStatus(s.txns[t], status))
    requires s.txns[t].FundingRefund? ==> status in {Pending, Completed, Failed}
    requires s.txns[t].Withdrawal? ==> status in {Pending, Completed, Reversed}
    ensures WellFormed(Restatus(s, t, status)) && Evolves(s, Restatus(s, t, status))
  {
    assert RowOk(s.txns, |s.books.balances|, t);
    RowAdvances(s, t, WithStatus(s.txns[t], status));
  }

  lemma InsertKeeps(s: State, row: Transaction)
    requires WellFormed(s) && !Taken(s, row.reference)
    requires RowOk(s.txns + [row], |s.books.balances|, |s.txns|)
    ensures WellFormed(Inserted(s, row)) && Evolves(s, Inserted(s, row))
  {
    var txns := s.txns + [row];
    assert RowsEvolve(s.txns, txns);
    forall k | 0 <= k < |s.txns|
      ensures RowOk(txns, |s.books.balances|, k)
    {
      RowOkEvolves(s.txns, txns, |s.books.balances|, k);
    }
  }

  lemma PostedKeeps(s: State, t: nat)
    requires WellFormed(s) && t < |s.txns|
    ensures WellFormed(Posted(s, t)) && Evolves(s, Posted(s, t))
  {
    assert RowOk(s.txns, |s.books.balances|, t);
    LegsExist(s.txns, s.books.balances, t);
    PostAppends(s.books, t, LegsOf(s.txns, t));
  }

  // ----- The effects -----

  lemma RegisterEvolves(s: State)
    requires WellFormed(s)
    ensures WellFormed(Register(s)) && Evolves(s, Register(s))
  {
    var r := Register(s);
    forall t | 0 <= t < |r.txns|
      ensures RowOk(r.txns, |r.books.balances|, t)
    {
      assert RowOk(s.txns, |s.books.balances|, t);
    }
  }

  lemma FundingInsertedEvolves(s: State, user: nat, reference: string, amount: int, now: int)
    requires WellFormed(s) && user < |s.users| && 0 < amount && !Taken(s, reference)
    ensures WellFormed(Inserted(s, FundingRow(user, reference, amount, now)))
    ensures Evolves(s, Inserted(s, FundingRow(user, reference, amount, now)))
  {
    InsertKeeps(s, FundingRow(user, reference, amount, now));
  }

  lemma ClaimedEvolves(s: State, t: nat, status: Status, fee: int)
    requires WellFormed(s) && t < |s.txns| && s.txns[t].Funding? && s.txns[t].status == Pending && 0 <= fee
    ensures WellFormed(Claimed(s, t, status, fee)) && Evolves(s, Claimed(s, t, status, fee))
  {
    assert RowOk(s.txns, |s.books.balances|, t);
    RowAdvances(s, t, Claimed(s, t, status, fee).txns[t]);
  }

  lemma FundingCreditedEvolves(s: State, t: nat, fee: int)
    requires WellFormed(s) && t < |s.txns| && s.txns[t].Funding? && s.txns[t].status == Pending && 0 <= fee
    ensures WellFormed(FundingCredited(s, t, fee)) && Evolves(s, FundingCredited(s, t, fee))
  {
    ClaimedEvolves(s, t, Completed, fee);
    PostedKeeps(Claimed(s, t, Completed, fee), t);
    EvolvesTransitive(s, Claimed(s, t, Completed, fee), FundingCredited(s, t, fee));
  }

  lemma FundingHeldEvolves(s: State, t: nat, fee: int, now: int)
    requires WellFormed(s) && t < |s.txns| && s.txns[t].Funding? && s.txns[t].status == Pending && 0 <= fee
    requires !Taken(s, RefundReference(t, 1))
    ensures WellFormed(FundingHeld(s, t, fee, now)) && Evolves(s, FundingHeld(s, t, fee, now))
  {
    var claimed := Claimed(s, t, Held, fee);
    ClaimedEvolves(s, t, Held, fee);
    PostedKeeps(claimed, t);
    EvolvesTransitive(s, claimed, Posted(claimed, t));
    FreeAfterUpdate(s, claimed, RefundReference(t, 1));
    assert RowOk(claimed.txns, |s.books.balances|, t);
    InsertKeeps(Posted(claimed, t), RefundAttempt(s, t, 1, now));
    EvolvesTransitive(s, Posted(claimed, t), FundingHeld(s, t, fee, now));
  }

  /** Rewriting rows in place frees and takes no reference. */
  lemma FreeAfterUpdate(s: State, r: State, reference: string)
    requires RowsEvolve(s.txns, r.txns) && |r.txns| == |s.txns| && !Taken(s, reference)
    ensures !Taken(r, reference)
  {
  }

  lemma RefundStartedEvolves(s: State, funding: nat, attempt: nat, now: int)
    requires WellFormed(s) && funding < |s.txns| && s.txns[funding].Funding?
             && !Taken(s, RefundReference(funding, attempt))
    ensures WellFormed(Inserted(s, RefundAttempt(s, funding, attempt, now)))
    ensures Evolves(s, Inserted(s, RefundAttempt(s, funding, attempt, now)))
  {
    assert RowOk(s.txns, |s.books.balances|, funding);
    InsertKeeps(s, RefundAttempt(s, funding, attempt, now));
  }

  /** Settling completes the attempt, refunds its funding, fails its other attempts, and touches no other row. */
  lemma SettledRowsEvolve(txns: seq<Transaction>, a: nat, f: nat)
    requires a < |txns| && txns[a].FundingRefund? && txns[a].status in {Pending, Failed}
    requires f < |txns| && txns[f].Funding? && txns[f].status == Held
    ensures RowsEvolve(txns, Settled(txns, a, f)) && |Settled(txns, a, f)| == |txns|
    ensures forall t :: 0 <= t < |txns| ==> Settled(txns, a, f)[t].reference == txns[t].reference
    ensures forall t :: 0 <= t < |txns| ==> Settled(txns, a, f)[t] == txns[t] || t == f || txns[t].FundingRefund?
    ensures Settled(txns, a, f)[f] == WithStatus(txns[f], Refunded)
  {
  }

  lemma SettledRowsOk(txns: seq<Transaction>, accounts: nat, a: nat, f: nat)
    requires RowsOk(txns, accounts) && a < |txns| && txns[a].FundingRefund? && txns[a].status in {Pending, Failed}
    requires f < |txns| && txns[f].Funding? && txns[f].status == Held
    ensures RowsOk(Settled(txns, a, f), accounts)
  {
    var after := Settled(txns, a, f);
    SettledRowsEvolve(txns, a, f);
    forall t | 0 <= t < |txns|
      ensures RowOk(after, accounts, t)
    {
      assert RowOk(txns, accounts, t);
      if after[t] == txns[t] {
        RowOkEvolves(txns, after, accounts, t);
      } else if txns[t].FundingRefund? {
        assert CanBecome(txns[txns[t].reverses], after[txns[t].reverses]);
      }
    }
  }

  lemma RefundSettledEvolves(s: State, a: nat)
    requires WellFormed(s) && a < |s.txns| && s.txns[a].FundingRefund? && s.txns[a].status in {Pending, Failed}
    requires RowOk(s.txns, |s.books.balances|, a) && s.txns[s.txns[a].reverses].status == Held
    ensures WellFormed(RefundSettled(s, a)) && Evolves(s, RefundSettled(s, a))
  {
    var f := s.txns[a].reverses;
    var settled := s.(txns := Settled(s.txns, a, f));
    SettledRowsEvolve(s.txns, a, f);
    SettledRowsOk(s.txns, |s.books.balances|, a, f);
    SettlingKeeps(s, settled);
    PostedKeeps(settled, a);
    EvolvesTransitive(s, settled, RefundSettled(s, a));
  }

  lemma SettlingKeeps(s: State, r: State)
    requires WellFormed(s) && r == s.(txns := r.txns) && |r.txns| == |s.txns| && RowsEvolve(s.txns, r.txns)
             && RowsOk(r.txns, |s.books.balances|)
    requires forall t :: 0 <= t < |s.txns| ==> r.txns[t].reference == s.txns[t].reference
    ensures WellFormed(r) && Evolves(s, r)
  {
  }

  lemma TransferPostedEvolves(s: State, o: TransferOrder, c: Context)
    requires WellFormed(s) && OrderOk(s, o) && o.sender != o.recipient && !Taken(s, o.reference)
    ensures WellFormed(TransferPosted(s, o, c)) && Evolves(s, TransferPosted(s, o, c))
  {
    InsertKeeps(s, TransferRow(o, c));
    PostedKeeps(Inserted(s, TransferRow(o, c)), |s.txns|);
    EvolvesTransitive(s, Inserted(s, TransferRow(o, c)), TransferPosted(s, o, c));
  }

  lemma WithdrawalPostedEvolves(s: State, o: WithdrawalOrder, c: Context)
    requires WellFormed(s) && WithdrawalOrderOk(s, o) && !Taken(s, o.reference)
    ensures WellFormed(WithdrawalPosted(s, o, c)) && Evolves(s, WithdrawalPosted(s, o, c))
  {
    InsertKeeps(s, WithdrawalRow(o, c));
    PostedKeeps(Inserted(s, WithdrawalRow(o, c)), |s.txns|);
    EvolvesTransitive(s, Inserted(s, WithdrawalRow(o, c)), WithdrawalPosted(s, o, c));
  }

  lemma WithdrawalReversedEvolves(s: State, t: nat, now: int)
    requires WellFormed(s) && t < |s.txns| && s.txns[t].Withdrawal? && s.txns[t].status == Pending
    requires !Taken(s, s.txns[t].reference + "-reversal")
    ensures WellFormed(WithdrawalReversed(s, t, now)) && Evolves(s, WithdrawalReversed(s, t, now))
  {
    var marked := Restatus(s, t, Reversed);
    assert RowOk(s.txns, |s.books.balances|, t);
    StatusAdvances(s, t, Reversed);
    FreeAfterUpdate(s, marked, s.txns[t].reference + "-reversal");
    var inserted := Inserted(marked, ReversalRow(s, t, now));
    InsertKeeps(marked, ReversalRow(s, t, now));
    EvolvesTransitive(s, marked, inserted);
    PostedKeeps(inserted, |s.txns|);
    EvolvesTransitive(s, inserted, WithdrawalReversed(s, t, now));
  }

  /** The rows and the books after a chargeback, before the freeze and the dispute row. */
  function Charged(s: State, original: nat, row: Transaction): State
    requires WellFormed(s) && original < |s.txns| && RowOk(s.txns + [row], |s.books.balances|, |s.txns|)
  {
    Restatus(Posted(Inserted(s, row), |s.txns|), original, Disputed)
  }

  lemma ChargedEvolves(s: State, original: nat, row: Transaction)
    requires WellFormed(s) && original < |s.txns| && s.txns[original].Funding? && IsCredited(s.txns[original].status)
    requires row.Chargeback? && !Taken(s, row.reference) && RowOk(s.txns + [row], |s.books.balances|, |s.txns|)
    ensures WellFormed(Charged(s, original, row)) && Evolves(s, Charged(s, original, row))
  {
    var inserted := Inserted(s, row);
    var posted := Posted(inserted, |s.txns|);
    InsertKeeps(s, row);
    PostedKeeps(inserted, |s.txns|);
    EvolvesTransitive(s, inserted, posted);
    StatusAdvances(posted, original, Disputed);
    EvolvesTransitive(s, posted, Charged(s, original, row));
  }

  lemma ChargebackPostedEvolves(s: State, original: nat, reference: string, amount: int, now: int)
    requires WellFormed(s) && original < |s.txns| && s.txns[original].Funding? && IsCredited(s.txns[original].status)
    requires 0 < amount && !Taken(s, reference)
    ensures WellFormed(ChargebackPosted(s, original, reference, amount, now))
    ensures Evolves(s, ChargebackPosted(s, original, reference, amount, now))
  {
    var row := ChargebackRow(s, original, reference, amount, now);
    assert RowOk(s.txns, |s.books.balances|, original);
    ChargedEvolves(s, original, row);
    var charged := Charged(s, original, row);
    var r := ChargebackPosted(s, original, reference, amount, now);
    DisputeRowEvolves(charged, r, Dispute(|s.txns|, reference, Open, amount), OwnerOf(s.txns[original].recipient));
    EvolvesTransitive(s, charged, r);
  }

  lemma DisputeRowEvolves(s: State, r: State, dispute: Dispute, user: nat)
    requires WellFormed(s) && user < |s.users| && dispute.chargeback < |s.txns|
             && s.txns[dispute.chargeback].Chargeback?
    requires r == s.(disputes := s.disputes + [dispute]) || r
             == Frozen(s, user, true).(disputes := s.disputes + [dispute])
    ensures WellFormed(r) && Evolves(s, r)
  {
  }

  lemma DisputeUpheldEvolves(s: State, d: nat)
    requires WellFormed(s) && d < |s.disputes| && s.disputes[d].status == Open
    requires RowOk(s.txns, |s.books.balances|, s.disputes[d].chargeback)
    requires IsCredited(s.txns[s.txns[s.disputes[d].chargeback].reverses].status)
    ensures WellFormed(DisputeUpheld(s, d)) && Evolves(s, DisputeUpheld(s, d))
  {
    var marked := WithDispute(s, d, Upheld);
    var original := s.txns[s.disputes[d].chargeback].reverses;
    StatusAdvances(marked, original, AggregateStatus(marked.txns, marked.disputes, original));
    EvolvesTransitive(s, marked, DisputeUpheld(s, d));
  }

  lemma DisputeFavoredEvolves(s: State, d: nat, now: int)
    requires WellFormed(s) && d < |s.disputes| && s.disputes[d].status == Open
    requires RowOk(s.txns, |s.books.balances|, s.disputes[d].chargeback)
    requires IsCredited(s.txns[s.txns[s.disputes[d].chargeback].reverses].status)
    requires !Taken(s, s.txns[s.disputes[d].chargeback].reference + "-resolved")
    ensures WellFormed(DisputeFavored(s, d, now)) && Evolves(s, DisputeFavored(s, d, now))
  {
    hide Evolves, UniqueReferences, AggregateStatus, OpenOnWallet;
    var c := s.disputes[d].chargeback;
    var inserted := Inserted(s, ResolutionRow(s, c, now));
    InsertKeeps(s, ResolutionRow(s, c, now));
    var posted := Posted(inserted, |s.txns|);
    PostedKeeps(inserted, |s.txns|);
    EvolvesTransitive(s, inserted, posted);
    var recomputed := Recomputed(WithDispute(posted, d, Resolved), s.txns[c].reverses);
    ResolvedEvolves(posted, d, s.txns[c].reverses);
    EvolvesTransitive(s, posted, recomputed);
    UnfreezeEvolves(recomputed, OwnerOf(s.txns[c].sender));
    EvolvesTransitive(s, recomputed, Frozen(recomputed, OwnerOf(s.txns[c].sender), false));
  }

  lemma ResolvedEvolves(s: State, d: nat, original: nat)
    requires WellFormed(s) && d < |s.disputes| && s.disputes[d].status == Open
    requires original < |s.txns| && s.txns[original].Funding? && IsCredited(s.txns[original].status)
    ensures var r := Recomputed(WithDispute(s, d, Resolved), original);
            WellFormed(r) && Evolves(s, r)
  {
    var marked := WithDispute(s, d, Resolved);
    StatusAdvances(marked, original, AggregateStatus(marked.txns, marked.disputes, original));
    EvolvesTransitive(s, marked, Recomputed(marked, original));
  }

  lemma UnfreezeEvolves(s: State, user: nat)
    requires WellFormed(s) && user < |s.users|
    ensures WellFormed(Frozen(s, user, false)) && Evolves(s, Frozen(s, user, false))
  {
  }

  lemma VerifyIdentityEvolves(s: State, user: nat, proof: Proof)
    requires WellFormed(s) && user < |s.users|
    ensures WellFormed(VerifyIdentity(s, user, proof)) && Evolves(s, VerifyIdentity(s, user, proof))
  {
  }
}
