/**
 Chargebacks and their disputes: one dispute per chargeback, never more charged back than was funded,
 what a wallet still owes, and the original's status as the aggregate of its disputes.
 */
module DisputeRules {
  import opened Tables
  import opened Sums
  import opened LedgerSpec
  import opened Evolution

  /** Chargebacks posted to a wallet less those resolved in Cliqpay's favour. */
  function OwedOn(wallet: nat): Transaction -> int {
    (t: Transaction) =>
      if t.Chargeback? && t.sender == wallet then t.amount
      else if t.ChargebackReversal? && t.recipient == wallet then -t.amount
      else 0
  }

  function Owed(txns: seq<Transaction>, wallet: nat): int { SumBy(OwedOn(wallet), txns) }

  function UnresolvedOn(txns: seq<Transaction>, wallet: nat): Dispute -> int {
    (d: Dispute) =>
      if d.chargeback < |txns| && txns[d.chargeback].Chargeback? && txns[d.chargeback].sender == wallet
          && d.status != Resolved
      then d.amount else 0
  }

  function Unresolved(txns: seq<Transaction>, disputes: seq<Dispute>, wallet: nat): int {
    SumBy(UnresolvedOn(txns, wallet), disputes)
  }

  function ChargedBack(txns: seq<Transaction>, original: nat): int { SumBy(ChargedAgainst(original), txns) }

  predicate HasDispute(disputes: seq<Dispute>, t: nat) {
    exists d :: 0 <= d < |disputes| && disputes[d].chargeback == t
  }

  ghost predicate OneDisputeEach(txns: seq<Transaction>, disputes: seq<Dispute>) {
    && (forall d, e :: 0 <= d < e < |disputes| ==> disputes[d].chargeback != disputes[e].chargeback)
    && (forall t :: 0 <= t < |txns| && txns[t].Chargeback? ==> HasDispute(disputes, t))
  }

  ghost predicate OwedIsUnresolved(txns: seq<Transaction>, disputes: seq<Dispute>) {
    forall w: nat :: Owed(txns, w) == Unresolved(txns, disputes, w)
  }

  /** What the rules say of one charged-back funding. */
  ghost predicate OriginalOk(txns: seq<Transaction>, disputes: seq<Dispute>, o: nat)
    requires o < |txns|
  {
    && 0 <= ChargedBack(txns, o) <= txns[o].amount
    && (0 < ChargedBack(txns, o) ==> IsCredited(txns[o].status) && txns[o].status == AggregateStatus(txns, disputes, o))
  }

  ghost predicate OriginalsOk(txns: seq<Transaction>, disputes: seq<Dispute>) {
    forall o :: 0 <= o < |txns| && txns[o].Funding? ==> OriginalOk(txns, disputes, o)
  }

  ghost predicate DisputesOk(txns: seq<Transaction>, disputes: seq<Dispute>) {
    && DisputesMatchRows(txns, disputes)
    && OneDisputeEach(txns, disputes)
    && OwedIsUnresolved(txns, disputes)
    && OriginalsOk(txns, disputes)
  }

  /** What a wallet owes is never negative: a chargeback is undone once, for the amount it took. */
  lemma OwedNonNegative(s: State, w: nat)
    requires WellFormed(s) && DisputesOk(s.txns, s.disputes)
    ensures 0 <= Owed(s.txns, w)
  {
    forall d | 0 <= d < |s.disputes|
      ensures 0 <= UnresolvedOn(s.txns, w)(s.disputes[d])
    {
      assert RowOk(s.txns, |s.books.balances|, s.disputes[d].chargeback);
    }
    SumNonNegative(UnresolvedOn(s.txns, w), s.disputes);
  }

  /** A dispute's original has been charged back, so it is credited. */
  lemma OriginalIsCredited(s: State, d: nat)
    requires WellFormed(s) && DisputesOk(s.txns, s.disputes) && d < |s.disputes|
    ensures RowOk(s.txns, |s.books.balances|, s.disputes[d].chargeback)
    ensures var o := s.txns[s.disputes[d].chargeback].reverses;
            0 < ChargedBack(s.txns, o) && IsCredited(s.txns[o].status)
  {
    var c := s.disputes[d].chargeback;
    assert RowOk(s.txns, |s.books.balances|, c);
    var o := s.txns[c].reverses;
    forall k | 0 <= k < |s.txns|
      ensures 0 <= ChargedAgainst(o)(s.txns[k])
    {
      assert RowOk(s.txns, |s.books.balances|, k);
    }
    SumAtLeastMember(ChargedAgainst(o), s.txns, c);
    assert OriginalOk(s.txns, s.disputes, o);
  }

  // ----- Rows evolving under unchanged disputes -----

  predicate IsChargebackRow(row: Transaction) { row.Chargeback? || row.ChargebackReversal? }

  lemma ChargebackRowsStay(before: seq<Transaction>, after: seq<Transaction>)
    requires RowsEvolve(before, after)
    ensures forall k :: 0 <= k < |before| && IsChargebackRow(before[k]) ==> after[k] == before[k]
    ensures forall k :: 0 <= k < |before| ==> IsChargebackRow(after[k]) == IsChargebackRow(before[k])
  {
  }

  lemma AggregateStays(before: seq<Transaction>, after: seq<Transaction>, disputes: seq<Dispute>, o: nat)
    requires RowsEvolve(before, after) && forall d :: 0 <= d < |disputes| ==> disputes[d].chargeback < |before|
    ensures AggregateStatus(after, disputes, o) == AggregateStatus(before, disputes, o)
  {
  }

  lemma UnresolvedStays(before: seq<Transaction>, after: seq<Transaction>, disputes: seq<Dispute>, w: nat)
    requires RowsEvolve(before, after) && DisputesMatchRows(before, disputes)
    ensures Unresolved(after, disputes, w) == Unresolved(before, disputes, w)
  {
    ChargebackRowsStay(before, after);
    SumSame(UnresolvedOn(before, w), UnresolvedOn(after, w), disputes);
  }

  lemma NothingChargedAhead(txns: seq<Transaction>, accounts: nat, o: nat)
    requires RowsOk(txns, accounts) && |txns| <= o
    ensures ChargedBack(txns, o) == 0
  {
    forall k | 0 <= k < |txns|
      ensures ChargedAgainst(o)(txns[k]) == 0
    {
      assert RowOk(txns, accounts, k);
    }
    SumZero(ChargedAgainst(o), txns);
  }

  /** Steps that touch no chargeback, no dispute and no credited funding. */
  lemma DisputesStay(before: seq<Transaction>, after: seq<Transaction>, accounts: nat, disputes: seq<Dispute>)
    requires RowsOk(before, accounts) && DisputesOk(before, disputes) && RowsEvolve(before, after)
    requires forall k :: 0 <= k < |before| && before[k].Funding? && IsCredited(before[k].status) ==>
             after[k].status == before[k].status
    requires forall k :: |before| <= k < |after| ==> !IsChargebackRow(after[k]) && 0 < after[k].amount
    ensures DisputesOk(after, disputes)
  {
    ChargebackRowsStay(before, after);
    forall w: nat
      ensures Owed(after, w) == Unresolved(after, disputes, w)
    {
      SumGrown(OwedOn(w), before, after);
      UnresolvedStays(before, after, disputes, w);
    }
    forall o | 0 <= o < |after| && after[o].Funding?
      ensures OriginalOk(after, disputes, o)
    {
      SumGrown(ChargedAgainst(o), before, after);
      AggregateStays(before, after, disputes, o);
      if o < |before| {
        assert CanBecome(before[o], after[o]);
        assert OriginalOk(before, disputes, o);
      } else {
        NothingChargedAhead(before, accounts, o);
      }
    }
  }

  // ----- A chargeback -----

  /** The rows after a chargeback: the new row, and its original marked disputed. */
  function ChargedRows(txns: seq<Transaction>, original: nat, row: Transaction): seq<Transaction>
    requires original < |txns|
  {
    (txns + [row])[original := WithStatus(txns[original], Disputed)]
  }

  lemma ChargedRowsSums(txns: seq<Transaction>, original: nat, row: Transaction, w: nat)
    requires original < |txns| && txns[original].Funding? && row.Chargeback?
    ensures Owed(ChargedRows(txns, original, row), w) == Owed(txns, w) + OwedOn(w)(row)
    ensures ChargedBack(ChargedRows(txns, original, row), w) == ChargedBack(txns, w) + ChargedAgainst(w)(row)
  {
    SumAppend(OwedOn(w), txns, row);
    SumUpdate(OwedOn(w), txns + [row], original, WithStatus(txns[original], Disputed));
    SumAppend(ChargedAgainst(w), txns, row);
    SumUpdate(ChargedAgainst(w), txns + [row], original, WithStatus(txns[original], Disputed));
  }

  lemma ChargedRowsEvolve(txns: seq<Transaction>, original: nat, row: Transaction)
    requires original < |txns| && txns[original].Funding? && IsCredited(txns[original].status)
    ensures RowsEvolve(txns, ChargedRows(txns, original, row))
  {
  }

  /** A dispute against another original does not count. */
  lemma AppendedElsewhere(txns: seq<Transaction>, disputes: seq<Dispute>, dispute: Dispute, o: nat)
    requires !Against(txns, dispute, o)
    ensures AggregateStatus(txns, disputes + [dispute], o) == AggregateStatus(txns, disputes, o)
  {
    forall status: DisputeStatus
      ensures SomeDispute(txns, disputes + [dispute], o, status) == SomeDispute(txns, disputes, o, status)
    {
      if SomeDispute(txns, disputes, o, status) {
        var d :| 0 <= d < |disputes| && Against(txns, disputes[d], o) && disputes[d].status == status;
        assert (disputes + [dispute])[d] == disputes[d];
      }
    }
  }

  lemma ChargedOriginals(txns: seq<Transaction>, disputes: seq<Dispute>, original: nat, row: Transaction,
      dispute: Dispute)
    requires DisputesOk(txns, disputes) && original < |txns| && txns[original].Funding?
             && IsCredited(txns[original].status)
    requires row.Chargeback? && row.reverses == original && row.status == Completed
    requires 0 < row.amount <= txns[original].amount - ChargedBack(txns, original)
    requires dispute.chargeback == |txns| && dispute.status == Open
    ensures OriginalsOk(ChargedRows(txns, original, row), disputes + [dispute])
  {
    var after := ChargedRows(txns, original, row);
    ChargedRowsEvolve(txns, original, row);
    forall o | 0 <= o < |after| && after[o].Funding?
      ensures OriginalOk(after, disputes + [dispute], o)
    {
      assert OriginalOk(txns, disputes, o);
      ChargedRowsSums(txns, original, row, o);
      if o == original {
        assert Against(after, (disputes + [dispute])[|disputes|], o);
      } else {
        AggregateStays(txns, after, disputes, o);
        AppendedElsewhere(after, disputes, dispute, o);
      }
    }
  }

  /** The dispute written with its chargeback keeps every rule. */
  lemma ChargebackKeepsDisputes(txns: seq<Transaction>, disputes: seq<Dispute>, original: nat, row: Transaction,
      dispute: Dispute)
    requires DisputesOk(txns, disputes) && original < |txns| && txns[original].Funding?
             && IsCredited(txns[original].status)
    requires row.Chargeback? && row.reverses == original && row.status == Completed
    requires 0 < row.amount <= txns[original].amount - ChargedBack(txns, original)
    requires dispute == Dispute(|txns|, row.reference, Open, row.amount)
    ensures DisputesOk(ChargedRows(txns, original, row), disputes + [dispute])
  {
    var after := ChargedRows(txns, original, row);
    var all := disputes + [dispute];
    ChargedRowsEvolve(txns, original, row);
    ChargebackRowsStay(txns, after);
    ChargedOriginals(txns, disputes, original, row, dispute);
    forall t | 0 <= t < |after| && after[t].Chargeback?
      ensures HasDispute(all, t)
    {
      if t < |txns| {
        var d :| 0 <= d < |disputes| && disputes[d].chargeback == t;
        assert all[d].chargeback == t;
      } else {
        assert all[|disputes|].chargeback == t;
      }
    }
    forall w: nat
      ensures Owed(after, w) == Unresolved(after, all, w)
    {
      ChargedRowsSums(txns, original, row, w);
      UnresolvedStays(txns, after, disputes, w);
      SumAppend(UnresolvedOn(after, w), disputes, dispute);
    }
  }

  // ----- A ruling -----

  function Ruled(disputes: seq<Dispute>, d: nat, status: DisputeStatus): seq<Dispute>
    requires d < |disputes|
  {
    disputes[d := disputes[d].(status := status)]
  }

  /** A ruling on a dispute against one original leaves the aggregate of every other alone. */
  lemma AggregateElsewhere(txns: seq<Transaction>, disputes: seq<Dispute>, d: nat, status: DisputeStatus, o: nat)
    requires d < |disputes| && !Against(txns, disputes[d], o)
    ensures AggregateStatus(txns, Ruled(disputes, d, status), o) == AggregateStatus(txns, disputes, o)
  {
    var after := Ruled(disputes, d, status);
    assert !Against(txns, after[d], o);
    forall st: DisputeStatus
      ensures SomeDispute(txns, after, o, st) == SomeDispute(txns, disputes, o, st)
    {
      if SomeDispute(txns, disputes, o, st) {
        var e :| 0 <= e < |disputes| && Against(txns, disputes[e], o) && disputes[e].status == st;
        assert after[e] == disputes[e];
      }
      if SomeDispute(txns, after, o, st) {
        var e :| 0 <= e < |after| && Against(txns, after[e], o) && after[e].status == st;
        assert after[e] == disputes[e];
      }
    }
  }

  /** Rows and disputes after a ruling: at most a reversal row is new, and the original carries its aggregate status. */
  ghost predicate RulingStep(txns: seq<Transaction>, disputes: seq<Dispute>, d: nat, status: DisputeStatus,
      after: seq<Transaction>) {
    && d < |disputes| && DisputesMatchRows(txns, disputes) && RowsEvolve(txns, after)
    && (forall k :: |txns| <= k < |after| ==> after[k].ChargebackReversal?)
    && var o := txns[disputes[d].chargeback].reverses;
       && o < |txns| && txns[o].Funding?
       && after[o].status == AggregateStatus(after, Ruled(disputes, d, status), o)
       && forall k :: 0 <= k < |txns| && k != o ==> after[k] == txns[k]
  }

  lemma RulingOriginals(txns: seq<Transaction>, disputes: seq<Dispute>, d: nat, status: DisputeStatus,
      after: seq<Transaction>)
    requires DisputesOk(txns, disputes) && RulingStep(txns, disputes, d, status, after)
    ensures OriginalsOk(after, Ruled(disputes, d, status))
  {
    ChargebackRowsStay(txns, after);
    forall o | 0 <= o < |after| && after[o].Funding?
      ensures OriginalOk(after, Ruled(disputes, d, status), o)
    {
      assert CanBecome(txns[o], after[o]);
      assert OriginalOk(txns, disputes, o);
      SumGrown(ChargedAgainst(o), txns, after);
      AggregateStays(txns, after, disputes, o);
      if o != txns[disputes[d].chargeback].reverses {
        AggregateElsewhere(after, disputes, d, status, o);
      }
    }
  }

  /**
   A ruling keeps every rule when the rows account for it: nothing is owed differently unless the ruling
   is in Cliqpay's favour, and then by exactly the disputed amount.
   */
  lemma RulingKeepsDisputes(txns: seq<Transaction>, disputes: seq<Dispute>, d: nat, status: DisputeStatus,
      after: seq<Transaction>)
    requires DisputesOk(txns, disputes) && RulingStep(txns, disputes, d, status, after) && disputes[d].status == Open
    requires forall w: nat :: Owed(after, w) == Owed(txns, w)
               - if status == Resolved && txns[disputes[d].chargeback].sender == w then disputes[d].amount else 0
    ensures DisputesOk(after, Ruled(disputes, d, status))
  {
    hide OriginalsOk, AggregateStatus;
    var ruled := Ruled(disputes, d, status);
    RulingOriginals(txns, disputes, d, status, after);
    ChargebackRowsStay(txns, after);
    forall t | 0 <= t < |after| && after[t].Chargeback?
      ensures HasDispute(ruled, t)
    {
      var e :| 0 <= e < |disputes| && disputes[e].chargeback == t;
      assert ruled[e].chargeback == t;
    }
    forall w: nat
      ensures Owed(after, w) == Unresolved(after, ruled, w)
    {
      UnresolvedStays(txns, after, disputes, w);
      SumUpdate(UnresolvedOn(after, w), disputes, d, ruled[d]);
    }
  }

  lemma ChargebackPostedDisputes(s: State, original: nat, reference: string, amount: int, now: int)
    requires WellFormed(s) && DisputesOk(s.txns, s.disputes) && original < |s.txns| && s.txns[original].Funding?
    requires IsCredited(s.txns[original].status) && 0 < amount <= s.txns[original].amount - ChargedBack(s.txns,
             original)
    ensures var r := ChargebackPosted(s, original, reference, amount, now); DisputesOk(r.txns, r.disputes)
  {
    var row := ChargebackRow(s, original, reference, amount, now);
    ChargebackKeepsDisputes(s.txns, s.disputes, original, row, Dispute(|s.txns|, reference, Open, amount));
    assert ChargebackPosted(s, original, reference, amount, now).txns == ChargedRows(s.txns, original, row);
  }

  /** The original's row with its aggregate status, where no row is inserted. */
  function UpheldRows(txns: seq<Transaction>, ruled: seq<Dispute>, o: nat): seq<Transaction>
    requires o < |txns|
  {
    txns[o := WithStatus(txns[o], AggregateStatus(txns, ruled, o))]
  }

  lemma UpheldRowsStep(txns: seq<Transaction>, disputes: seq<Dispute>, d: nat, o: nat)
    requires DisputesMatchRows(txns, disputes) && d < |disputes| && o == txns[disputes[d].chargeback].reverses
    requires o < |txns| && txns[o].Funding? && IsCredited(txns[o].status)
    ensures RulingStep(txns, disputes, d, Upheld, UpheldRows(txns, Ruled(disputes, d, Upheld), o))
    ensures forall w: nat :: Owed(UpheldRows(txns, Ruled(disputes, d, Upheld), o), w) == Owed(txns, w)
  {
    var ruled := Ruled(disputes, d, Upheld);
    var after := UpheldRows(txns, ruled, o);
    assert RowsEvolve(txns, after);
    AggregateStays(txns, after, ruled, o);
    forall w: nat
      ensures Owed(after, w) == Owed(txns, w)
    {
      SumUpdate(OwedOn(w), txns, o, after[o]);
    }
  }

  lemma DisputeUpheldDisputes(s: State, d: nat)
    requires WellFormed(s) && DisputesOk(s.txns, s.disputes) && d < |s.disputes| && s.disputes[d].status == Open
    ensures var r := DisputeUpheld(s, d); DisputesOk(r.txns, r.disputes)
  {
    OriginalIsCredited(s, d);
    var o := s.txns[s.disputes[d].chargeback].reverses;
    UpheldRowsStep(s.txns, s.disputes, d, o);
    RulingKeepsDisputes(s.txns, s.disputes, d, Upheld, UpheldRows(s.txns, Ruled(s.disputes, d, Upheld), o));
  }

  /** The rows after a ruling in Cliqpay's favour: the compensating row, and the original's aggregate status. */
  function FavoredRows(txns: seq<Transaction>, ruled: seq<Dispute>, o: nat, row: Transaction): seq<Transaction>
    requires o < |txns|
  {
    (txns + [row])[o := WithStatus(txns[o], AggregateStatus(txns + [row], ruled, o))]
  }

  lemma FavoredRowsStep(txns: seq<Transaction>, disputes: seq<Dispute>, d: nat, o: nat, row: Transaction)
    requires DisputesMatchRows(txns, disputes) && d < |disputes| && o == txns[disputes[d].chargeback].reverses
    requires o < |txns| && txns[o].Funding? && IsCredited(txns[o].status) && row.ChargebackReversal?
    ensures RulingStep(txns, disputes, d, Resolved, FavoredRows(txns, Ruled(disputes, d, Resolved), o, row))
    ensures forall w: nat :: Owed(FavoredRows(txns, Ruled(disputes, d, Resolved), o, row), w)
                             == Owed(txns, w) + OwedOn(w)(row)
  {
    var ruled := Ruled(disputes, d, Resolved);
    var after := FavoredRows(txns, ruled, o, row);
    assert RowsEvolve(txns, after) && RowsEvolve(txns, txns + [row]);
    AggregateStays(txns, after, ruled, o);
    AggregateStays(txns, txns + [row], ruled, o);
    forall w: nat
      ensures Owed(after, w) == Owed(txns, w) + OwedOn(w)(row)
    {
      SumAppend(OwedOn(w), txns, row);
      SumUpdate(OwedOn(w), txns + [row], o, after[o]);
    }
  }

  lemma DisputeFavoredDisputes(s: State, d: nat, now: int)
    requires WellFormed(s) && DisputesOk(s.txns, s.disputes) && d < |s.disputes| && s.disputes[d].status == Open
    ensures var r := DisputeFavored(s, d, now); DisputesOk(r.txns, r.disputes)
  {
    OriginalIsCredited(s, d);
    var c := s.disputes[d].chargeback;
    var o := s.txns[c].reverses;
    var row := ResolutionRow(s, c, now);
    FavoredRowsStep(s.txns, s.disputes, d, o, row);
    RulingKeepsDisputes(s.txns, s.disputes, d, Resolved, FavoredRows(s.txns, Ruled(s.disputes, d, Resolved), o, row));
    var r := DisputeFavored(s, d, now);
    assert r.txns == FavoredRows(s.txns, Ruled(s.disputes, d, Resolved), o, row);
  }
}
