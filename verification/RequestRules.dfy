/** Money requests: each paid one names its own transfer. */
module RequestRules {
  import opened Tables
  import opened LedgerSpec
  import opened Evolution

  /** The transfer that paid a request: its amount, from its payer to its requester. */
  predicate PaidBy(txns: seq<Transaction>, q: MoneyRequest, t: nat) {
    && t < |txns| && txns[t].P2PTransfer? && txns[t].status == Completed && txns[t].amount == q.amount
    && txns[t].sender == WalletOf(q.payer) && txns[t].recipient == WalletOf(q.requester)
  }

  ghost predicate RequestsOk(s: State) {
    && (forall r :: 0 <= r < |s.requests| ==> s.requests[r].transactionId.Some? == (s.requests[r].status == Paid))
    && (forall r :: 0 <= r < |s.requests| && s.requests[r].status == Paid ==>
        PaidBy(s.txns, s.requests[r], s.requests[r].transactionId.value))
    && (forall q, r :: 0 <= q < r < |s.requests| && s.requests[q].status == Paid && s.requests[r].status == Paid ==>
          s.requests[q].transactionId != s.requests[r].transactionId)
  }

  lemma RequestsStay(s: State, r: State)
    requires RequestsOk(s) && RowsEvolve(s.txns, r.txns) && r.requests == s.requests
    ensures RequestsOk(r)
  {
  }

  /** Paying an outstanding request with a transfer no row named before. */
  lemma PaidKeepsRequests(s: State, posted: State, r: nat)
    requires RequestsOk(s) && RequestsOk(posted) && posted.requests == s.requests && r < |s.requests|
             && s.requests[r].status == Outstanding
    requires PaidBy(posted.txns, s.requests[r], |s.txns|)
    ensures RequestsOk(posted.(requests := s.requests[r := s.requests[r].(status := Paid,
            transactionId := Some(|s.txns|))]))
  {
  }

  /** Once paid, no second payment posts: under another reference the request is no longer payable. */
  lemma SecondPayPostsNothing(s: State, r: nat, payer: nat, reference: string, fee: int, visibility: Visibility,
      c: Context)
    requires WellFormed(s) && 0 <= fee && r < |s.requests| && s.requests[r].status != Outstanding
    ensures PayRequest(s, r, payer, reference, fee, visibility, c).0 == s
    ensures !PayRequest(s, r, payer, reference, fee, visibility, c).1.Acted?
  {
  }
}
