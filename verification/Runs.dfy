/**
 Every run of the ledger: any sequence of committed database transactions, in any order, with any
 provider reports duplicated, lost or late. One invariant holds after each.
 */
module Runs {
  import opened Tables
  import opened Sums
  import opened Kyc
  import opened LedgerSpec
  import opened Evolution
  import opened Accounting
  import opened Refunds
  import opened Reversals
  import opened DisputeRules
  import opened WalletRules
  import opened RequestRules

  /** One database transaction, with what it read before it opened. */
  datatype Op =
    | Registers
    | Verifies(user: nat, proof: Proof)
    | InitiatesFunding(user: nat, reference: string, amount: int, now: int)
    | FundingNotStarted(reference: string)
    | ReportsFunding(report: FundingReport, now: int)
    | StartsRefund(funding: nat, now: int)
    | ReportsRefundPaid(reference: string, amount: int)
    | ReportsRefundFailed(reference: string)
    | Transfers(transfer: TransferOrder, context: Context)
    | Withdraws(withdrawal: WithdrawalOrder, context: Context)
    | ReversesWithdrawal(reference: string, now: int)
    | CompletesWithdrawal(reference: string, amount: int)
    | RecordsChargeback(original: nat, reference: string, amount: int, now: int)
    | ResolvesDispute(reference: string, ruling: Ruling, now: int)
    | CreatesRequest(requester: nat, payer: nat, amount: int, note: Option<string>, expiresAt: int, allowed: bool)
    | ClosesRequest(request: nat, actor: nat, closing: RequestStatus, now: int)
    | PaysRequest(request: nat, payer: nat, reference: string, fee: int, visibility: Visibility, context: Context)

  /** The identity is the one the stored tier was derived from. */
  ghost predicate TiersOk(s: State) {
    forall u :: 0 <= u < |s.users| ==> s.users[u].tier == DeriveTier(s.users[u].identity)
  }

  ghost predicate Inv(s: State) {
    && WellFormed(s) && AccountingOk(s) && RefundsOk(s.txns) && DisputesOk(s.txns, s.disputes)
    && ReversalsOk(s.txns) && UsersOk(s) && RequestsOk(s) && TiersOk(s)
  }

  /**
   What is assumed of the caller and the configuration: ids name existing rows, amounts are positive and
   fees are not negative; a funding is given up only while pending; and a chargeback's earlier, possibly stale,
   status check once saw its original credited.
   */
  ghost predicate Enabled(s: State, op: Op)
    requires WellFormed(s)
  {
    match op
    case Verifies(user, _) => user < |s.users|
    case InitiatesFunding(user, _, amount, _) => user < |s.users| && 0 < amount
    case FundingNotStarted(reference) =>
      Find(s.txns, reference).Some? ==>
        s.txns[Find(s.txns, reference).value].Funding? && s.txns[Find(s.txns, reference).value].status == Pending
    case ReportsFunding(report, _) => 0 <= report.fee
    case Transfers(o, _) => OrderOk(s, o)
    case Withdraws(o, _) => WithdrawalOrderOk(s, o)
    case RecordsChargeback(original, _, amount, _) =>
      0 < amount && original < |s.txns| && s.txns[original].Funding? && IsCredited(s.txns[original].status)
    case CreatesRequest(requester, payer, amount, _, _, _) => requester < |s.users| && payer < |s.users| && 0 < amount
    case ClosesRequest(_, _, closing, _) => closing in {Cancelled, Declined}
    case PaysRequest(_, _, _, fee, _, _) => 0 <= fee
    case _ => true
  }

  ghost function Step(s: State, op: Op): State
    requires WellFormed(s) && DisputesMatchRows(s.txns, s.disputes) && Enabled(s, op)
  {
    match op
    case Registers => Register(s)
    case Verifies(user, proof) => VerifyIdentity(s, user, proof)
    case InitiatesFunding(user, reference, amount, now) => InitiateFunding(s, user, reference, amount, now).0
    case FundingNotStarted(reference) => MarkFundingFailed(s, reference)
    case ReportsFunding(report, now) => ReportFunding(s, report, now).0
    case StartsRefund(funding, now) => StartRefundAttempt(s, funding, now).0
    case ReportsRefundPaid(reference, amount) => SettleRefund(s, reference, amount).0
    case ReportsRefundFailed(reference) => FailRefund(s, reference).0
    case Transfers(o, c) => Transfer(s, o, c).0
    case Withdraws(o, c) => Withdraw(s, o, c).0
    case ReversesWithdrawal(reference, now) => ReverseWithdrawal(s, reference, now).0
    case CompletesWithdrawal(reference, amount) => CompleteWithdrawal(s, reference, amount).0
    case RecordsChargeback(original, reference, amount, now) => RecordChargeback(s, original, reference, amount, now).0
    case ResolvesDispute(reference, ruling, now) => ResolveDispute(s, reference, ruling, now).0
    case CreatesRequest(requester, payer, amount, note, expiresAt, allowed) =>
      CreateRequest(s, requester, payer, amount, note, expiresAt, allowed).0
    case ClosesRequest(r, actor, closing, now) => CloseRequest(s, r, actor, closing, now).0
    case PaysRequest(r, payer, reference, fee, visibility, c) =>
        PayRequest(s, r, payer, reference, fee, visibility, c).0
  }

  /** A step keeps the invariant and unwrites nothing. */
  ghost predicate Keeps(s: State, r: State) { Inv(r) && Evolves(s, r) }

  lemma UnchangedKeeps(s: State)
    requires Inv(s)
    ensures Keeps(s, s)
  {
  }

  // ----- Steps that touch none of the refund, dispute and request rules -----

  /** The rules that read rows of several kinds. */
  ghost predicate RowRulesOk(s: State) {
    RefundsOk(s.txns) && DisputesOk(s.txns, s.disputes) && RequestsOk(s)
  }

  /** No refund attempt, chargeback or credited funding is touched, and no funding is held or refunded. */
  ghost predicate LeavesRulesAlone(before: seq<Transaction>, after: seq<Transaction>) {
    && RowsEvolve(before, after)
    && (forall k :: 0 <= k < |before| ==> UntouchedByRules(before[k], after[k]))
    && (forall k :: |before| <= k < |after| ==> NewToRules(after[k]))
  }

  predicate UntouchedByRules(before: Transaction, after: Transaction) {
    after == before || before.Withdrawal?
    || (before.Funding? && before.status == Pending && after.Funding? && after.status in {Completed, Failed})
  }

  predicate NewToRules(row: Transaction) {
    0 < row.amount && (row.P2PTransfer? || row.Withdrawal? || row.WithdrawalReversal?
        || (row.Funding? && row.status == Pending))
  }

  lemma RulesStay(s: State, r: State)
    requires WellFormed(s) && RowRulesOk(s) && LeavesRulesAlone(s.txns, r.txns)
    requires r.disputes == s.disputes && r.requests == s.requests
    ensures RowRulesOk(r)
  {
    forall k | 0 <= k < |s.txns|
      ensures CanBecome(s.txns[k], r.txns[k]) && SameForRefunds(s.txns[k], r.txns[k])
    {
      assert UntouchedByRules(s.txns[k], r.txns[k]);
    }
    forall k | |s.txns| <= k < |r.txns|
      ensures !r.txns[k].FundingRefund? && !IsChargebackRow(r.txns[k])
    {
      assert NewToRules(r.txns[k]);
    }
    RefundsStay(s, r);
    DisputesStay(s.txns, r.txns, |s.books.balances|, s.disputes);
    RequestsStay(s, r);
  }

  lemma AppendLeavesRulesAlone(txns: seq<Transaction>, row: Transaction)
    requires NewToRules(row)
    ensures LeavesRulesAlone(txns, txns + [row])
  {
  }

  lemma UpdateLeavesRulesAlone(txns: seq<Transaction>, t: nat, row: Transaction)
    requires t < |txns| && CanBecome(txns[t], row) && UntouchedByRules(txns[t], row)
    ensures LeavesRulesAlone(txns, txns[t := row])
  {
  }

  lemma UpdateAppendLeavesRulesAlone(txns: seq<Transaction>, t: nat, row: Transaction, inserted: Transaction)
    requires t < |txns| && CanBecome(txns[t], row) && UntouchedByRules(txns[t], row) && NewToRules(inserted)
    ensures LeavesRulesAlone(txns, txns[t := row] + [inserted])
  {
  }

  // ----- Each transaction keeps the invariant -----

  lemma RegistersKeeps(s: State)
    requires Inv(s)
    ensures Keeps(s, Register(s))
  {
    RegisterEvolves(s);
    RegisterAccounting(s);
    RegisterUsers(s);
    RequestsStay(s, Register(s));
  }

  lemma VerifiesKeeps(s: State, user: nat, proof: Proof)
    requires Inv(s) && user < |s.users|
    ensures Keeps(s, VerifyIdentity(s, user, proof))
  {
    VerifyIdentityEvolves(s, user, proof);
    VerifyIdentityUsers(s, user, proof);
    RaiseTierTracksDerivation(s.users[user].identity, WithProof(s.users[user].identity, proof));
    NothingMovedAccounting(s, VerifyIdentity(s, user, proof));
  }

  lemma FundingInsertedKeeps(s: State, user: nat, reference: string, amount: int, now: int)
    requires Inv(s) && user < |s.users| && 0 < amount && !Taken(s, reference)
    ensures var r := Inserted(s, FundingRow(user, reference, amount, now)); Keeps(s, r)
  {
    hide UsersOk, DisputesOk, RefundsOk, ReversalsOk, AccountingOk, RequestsOk;
    var row := FundingRow(user, reference, amount, now);
    var r := Inserted(s, row);
    FundingInsertedEvolves(s, user, reference, amount, now);
    InsertedAccounting(s, row);
    AppendLeavesRulesAlone(s.txns, row);
    RulesStay(s, r);
    NothingReversed(s, r);
    NothingMovedUsers(s, r);
  }

  lemma InitiatesFundingKeeps(s: State, user: nat, reference: string, amount: int, now: int)
    requires Inv(s) && user < |s.users| && 0 < amount
    ensures var r := InitiateFunding(s, user, reference, amount, now).0; Keeps(s, r)
  {
    if InitiateFunding(s, user, reference, amount, now).1.Acted? {
      FundingInsertedKeeps(s, user, reference, amount, now);
    } else {
      UnchangedKeeps(s);
    }
  }

  /** No withdrawal is reversed and no row reverses one. */
  ghost predicate ReversesNothing(before: seq<Transaction>, after: seq<Transaction>) {
    && |before| <= |after|
    && (forall k :: 0 <= k < |before| && before[k].Withdrawal? ==>
        (before[k].status == Reversed) == (after[k].status == Reversed))
    && (forall k :: |before| <= k < |after| ==>
          !after[k].WithdrawalReversal? && (after[k].Withdrawal? ==> after[k].status == Pending))
  }

  lemma NothingReversed(s: State, r: State)
    requires WellFormed(s) && ReversalsOk(s.txns) && RowsEvolve(s.txns, r.txns) && ReversesNothing(s.txns, r.txns)
    ensures ReversalsOk(r.txns)
  {
    ReversalsStay(s.txns, r.txns, |s.books.balances|);
  }

  /** A status change that posts nothing and that no wallet, refund count or dispute reads. */
  lemma QuietRestatusKeeps(s: State, t: nat, status: Status)
    requires Inv(s) && t < |s.txns|
    requires (s.txns[t].Funding? && s.txns[t].status == Pending && status == Failed)
             || (s.txns[t].Withdrawal? && s.txns[t].status == Pending && status == Completed)
    ensures Keeps(s, Restatus(s, t, status))
  {
    hide UsersOk, DisputesOk, RefundsOk, ReversalsOk, AccountingOk, RequestsOk;
    var r := Restatus(s, t, status);
    StatusAdvances(s, t, status);
    RestatusAccounting(s, t, status);
    UpdateLeavesRulesAlone(s.txns, t, WithStatus(s.txns[t], status));
    RulesStay(s, r);
    NothingReversed(s, r);
    NothingMovedUsers(s, r);
  }

  lemma FundingCreditedKeeps(s: State, t: nat, fee: int)
    requires Inv(s) && t < |s.txns| && s.txns[t].Funding? && s.txns[t].status == Pending && 0 <= fee
    requires RowOk(s.txns, |s.books.balances|, t)
    requires EvaluateCap(LimitOf(s, OwnerOf(s.txns[t].recipient)), s.books.balances[s.txns[t].recipient], 0,
             s.txns[t].amount).Allowed?
    ensures Keeps(s, FundingCredited(s, t, fee))
  {
    hide UsersOk, DisputesOk, RefundsOk, ReversalsOk, AccountingOk, RequestsOk;
    FundingCreditedEvolves(s, t, fee);
    ClaimedAccounting(s, t, Completed, fee);
    UpdateLeavesRulesAlone(s.txns, t, Claimed(s, t, Completed, fee).txns[t]);
    RulesStay(s, FundingCredited(s, t, fee));
    NothingReversed(s, FundingCredited(s, t, fee));
    FundingCreditedUsers(s, t, fee);
  }

  lemma FundingHeldUsers(s: State, t: nat, fee: int, now: int)
    requires WellFormed(s) && UsersOk(s) && t < |s.txns| && s.txns[t].Funding? && s.txns[t].status == Pending
             && 0 <= fee
    requires WellFormed(FundingHeld(s, t, fee, now))
    ensures UsersOk(FundingHeld(s, t, fee, now))
  {
    var claimed := Claimed(s, t, Held, fee);
    ClaimedEvolves(s, t, Held, fee);
    PostedKeeps(claimed, t);
    SuspensePostingUsers(s, claimed, t);
    NothingMovedUsers(Posted(claimed, t), FundingHeld(s, t, fee, now));
  }

  lemma FundingHeldKeepsInv(s: State, t: nat, fee: int, now: int)
    requires Inv(s) && t < |s.txns| && s.txns[t].Funding? && s.txns[t].status == Pending && 0 <= fee
    requires !Taken(s, RefundReference(t, 1))
    ensures Keeps(s, FundingHeld(s, t, fee, now))
  {
    hide UsersOk, DisputesOk, RefundsOk, ReversalsOk, AccountingOk, RequestsOk;
    var r := FundingHeld(s, t, fee, now);
    FundingHeldEvolves(s, t, fee, now);
    FundingHeldAccounting(s, t, fee, now);
    FundingHeldKeeps(s, t, fee, now);
    FundingHeldUsers(s, t, fee, now);
    assert RowOk(s.txns, |s.books.balances|, t);
    UpdateAppendReversesNothing(s.txns, t, Claimed(s, t, Held, fee).txns[t], RefundAttempt(s, t, 1, now));
    NothingReversed(s, r);
    DisputesStay(s.txns, r.txns, |s.books.balances|, s.disputes);
    RequestsStay(s, r);
  }

  lemma UpdateAppendReversesNothing(txns: seq<Transaction>, t: nat, row: Transaction, inserted: Transaction)
    requires t < |txns| && txns[t].Funding? && !inserted.Withdrawal? && !inserted.WithdrawalReversal?
    ensures ReversesNothing(txns, txns[t := row] + [inserted])
  {
  }

  lemma ReportsFundingKeeps(s: State, report: FundingReport, now: int)
    requires Inv(s) && 0 <= report.fee
    ensures var r := ReportFunding(s, report, now).0; Keeps(s, r)
  {
    var found := Find(s.txns, report.reference);
    if found.Some? && s.txns[found.value].Funding? && s.txns[found.value].status == Pending {
      var t := found.value;
      assert RowOk(s.txns, |s.books.balances|, t);
      var row := s.txns[t];
      var net := NetReported(report, row.amount);
      if !report.success || net != row.amount {
        QuietRestatusKeeps(s, t, Failed);
      } else if EvaluateCap(LimitOf(s, OwnerOf(row.recipient)), s.books.balances[row.recipient], 0, net).Allowed? {
        FundingCreditedKeeps(s, t, report.fee);
      } else if !Taken(s, RefundReference(t, 1)) {
        FundingHeldKeepsInv(s, t, report.fee, now);
      }
    }
  }

  lemma RefundStartedKeepsInv(s: State, f: nat, now: int)
    requires Inv(s) && f < |s.txns| && s.txns[f].Funding? && s.txns[f].status == Held && 0 <= Attempts(s.txns, f)
    requires forall a :: 0 <= a < |s.txns| ==> IsAttemptIn(f, Pending)(s.txns[a]) != 1
    requires !Taken(s, RefundReference(f, Attempts(s.txns, f) + 1))
    ensures var r := Inserted(s, RefundAttempt(s, f, Attempts(s.txns, f) + 1, now)); Keeps(s, r)
  {
    hide UsersOk, DisputesOk, RefundsOk, ReversalsOk, AccountingOk, RequestsOk;
    var row := RefundAttempt(s, f, Attempts(s.txns, f) + 1, now);
    var r := Inserted(s, row);
    RefundStartedKeeps(s, f, now);
    RefundStartedEvolves(s, f, Attempts(s.txns, f) + 1, now);
    InsertedAccounting(s, row);
    NothingReversed(s, r);
    assert 0 < row.amount by {
      assert RowOk(s.txns, |s.books.balances|, f);
    }
    AttemptLeavesDisputes(s, row);
    NothingMovedUsers(s, r);
    RequestsStay(s, r);
  }

  lemma AttemptLeavesDisputes(s: State, row: Transaction)
    requires WellFormed(s) && DisputesOk(s.txns, s.disputes) && row.FundingRefund? && 0 < row.amount
    ensures DisputesOk(s.txns + [row], s.disputes)
  {
    DisputesStay(s.txns, s.txns + [row], |s.books.balances|, s.disputes);
  }

  lemma StartsRefundKeeps(s: State, f: nat, now: int)
    requires Inv(s)
    ensures var r := StartRefundAttempt(s, f, now).0; Keeps(s, r)
  {
    if StartRefundAttempt(s, f, now).1.Acted? {
      SumNonNegative(IsAttempt(f), s.txns);
      RefundStartedKeepsInv(s, f, now);
    } else {
      UnchangedKeeps(s);
    }
  }

  /** Settling touches one held funding and its attempts, and no wallet. */
  lemma SettledUsers(s: State, a: nat)
    requires Inv(s) && a < |s.txns| && s.txns[a].FundingRefund? && RowOk(s.txns, |s.books.balances|, a)
    requires WellFormed(RefundSettled(s, a)) && RowsEvolve(s.txns, RefundSettled(s, a).txns)
    ensures UsersOk(RefundSettled(s, a))
  {
    var x := s.(txns := Settled(s.txns, a, s.txns[a].reverses));
    assert WellFormed(x) by {
      assert RefundSettled(s, a).txns == x.txns;
    }
    SuspensePostingUsers(s, x, a);
  }

  lemma SettledDisputes(txns: seq<Transaction>, accounts: nat, disputes: seq<Dispute>, a: nat, f: nat)
    requires RowsOk(txns, accounts) && DisputesOk(txns, disputes) && a < |txns| && txns[a].FundingRefund?
             && txns[a].reverses == f
    requires f < |txns| && txns[f].Funding? && txns[f].status == Held && RowsEvolve(txns, Settled(txns, a, f))
    ensures DisputesOk(Settled(txns, a, f), disputes)
  {
    DisputesStay(txns, Settled(txns, a, f), accounts, disputes);
  }

  lemma SettledReversals(txns: seq<Transaction>, accounts: nat, a: nat, f: nat)
    requires RowsOk(txns, accounts) && ReversalsOk(txns) && a < |txns| && txns[a].FundingRefund?
    requires f < |txns| && txns[f].Funding? && RowsEvolve(txns, Settled(txns, a, f))
    ensures ReversalsOk(Settled(txns, a, f))
  {
    ReversalsStay(txns, Settled(txns, a, f), accounts);
  }

  lemma RefundSettledKeepsInv(s: State, a: nat)
    requires Inv(s) && a < |s.txns| && s.txns[a].FundingRefund? && s.txns[a].status in {Pending, Failed}
    requires RowOk(s.txns, |s.books.balances|, a) && s.txns[s.txns[a].reverses].status == Held
    ensures Keeps(s, RefundSettled(s, a))
  {
    hide UsersOk, DisputesOk, RefundsOk, ReversalsOk, AccountingOk, RequestsOk;
    RefundSettledEvolves(s, a);
    RefundSettledAccounting(s, a);
    RefundSettledKeeps(s, a);
    SettledUsers(s, a);
    SettledDisputes(s.txns, |s.books.balances|, s.disputes, a, s.txns[a].reverses);
    SettledReversals(s.txns, |s.books.balances|, a, s.txns[a].reverses);
    RequestsStay(s, RefundSettled(s, a));
  }

  lemma RefundFailedKeepsInv(s: State, a: nat)
    requires Inv(s) && a < |s.txns| && s.txns[a].FundingRefund? && s.txns[a].status == Pending
    ensures Keeps(s, Restatus(s, a, Failed))
  {
    var r := Restatus(s, a, Failed);
    StatusAdvances(s, a, Failed);
    RestatusAccounting(s, a, Failed);
    RefundFailedKeeps(s, a);
    NothingReversed(s, r);
    DisputesStay(s.txns, r.txns, |s.books.balances|, s.disputes);
    NothingMovedUsers(s, r);
    RequestsStay(s, r);
  }

  lemma TransferPostedKeeps(s: State, o: TransferOrder, c: Context)
    requires Inv(s) && OrderOk(s, o) && o.sender != o.recipient && !Taken(s, o.reference)
    requires CheckDailyLimit(LimitOf(s, o.sender), s.txns, WalletOf(o.sender), o.amount, c.now).None?
    requires var (balance, pending) := BalanceAndPending(s, o.recipient, c.now);
             EvaluateCap(LimitOf(s, o.recipient), balance, pending, o.amount).Allowed?
    requires o.amount + o.fee <= s.books.balances[WalletOf(o.sender)]
    ensures Keeps(s, TransferPosted(s, o, c))
  {
    hide UsersOk, DisputesOk, RefundsOk, ReversalsOk, AccountingOk, RequestsOk;
    var row := TransferRow(o, c);
    TransferPostedEvolves(s, o, c);
    InsertedPostedAccounting(s, row);
    AppendLeavesRulesAlone(s.txns, row);
    RulesStay(s, TransferPosted(s, o, c));
    NothingReversed(s, TransferPosted(s, o, c));
    TransferPostedUsers(s, o, c);
  }

  lemma TransfersKeeps(s: State, o: TransferOrder, c: Context)
    requires Inv(s) && OrderOk(s, o)
    ensures var r := Transfer(s, o, c).0; Keeps(s, r)
  {
    if Transfer(s, o, c).1.Acted? {
      TransferPostedKeeps(s, o, c);
    } else {
      UnchangedKeeps(s);
    }
  }

  lemma WithdrawalPostedKeeps(s: State, o: WithdrawalOrder, c: Context)
    requires Inv(s) && WithdrawalOrderOk(s, o) && !Taken(s, o.reference)
    requires CheckDailyLimit(LimitOf(s, o.user), s.txns, WalletOf(o.user), o.amount, c.now).None?
    requires o.amount + o.platformFee + o.providerFee <= s.books.balances[WalletOf(o.user)]
    ensures Keeps(s, WithdrawalPosted(s, o, c))
  {
    hide UsersOk, DisputesOk, RefundsOk, ReversalsOk, AccountingOk, RequestsOk;
    var row := WithdrawalRow(o, c);
    WithdrawalPostedEvolves(s, o, c);
    InsertedPostedAccounting(s, row);
    AppendLeavesRulesAlone(s.txns, row);
    RulesStay(s, WithdrawalPosted(s, o, c));
    NothingReversed(s, WithdrawalPosted(s, o, c));
    WithdrawalPostedUsers(s, o, c);
  }

  lemma WithdrawsKeeps(s: State, o: WithdrawalOrder, c: Context)
    requires Inv(s) && WithdrawalOrderOk(s, o)
    ensures var r := Withdraw(s, o, c).0; Keeps(s, r)
  {
    if Withdraw(s, o, c).1.Acted? {
      WithdrawalPostedKeeps(s, o, c);
    } else {
      UnchangedKeeps(s);
    }
  }

  lemma WithdrawalReversedKeeps(s: State, t: nat, now: int)
    requires Inv(s) && t < |s.txns| && s.txns[t].Withdrawal? && s.txns[t].status == Pending
    requires !Taken(s, s.txns[t].reference + "-reversal")
    ensures Keeps(s, WithdrawalReversed(s, t, now))
  {
    hide UsersOk, DisputesOk, RefundsOk, ReversalsOk, AccountingOk, RequestsOk;
    var r := WithdrawalReversed(s, t, now);
    WithdrawalReversedEvolves(s, t, now);
    WithdrawalReversedAccounting(s, t, now);
    assert RowOk(s.txns, |s.books.balances|, t);
    UpdateAppendLeavesRulesAlone(s.txns, t, WithStatus(s.txns[t], Reversed), ReversalRow(s, t, now));
    RulesStay(s, r);
    ReversingKeeps(s.txns, |s.books.balances|, t, ReversalRow(s, t, now));
    WithdrawalReversedUsers(s, t, now);
  }

  lemma ChargebackPostedKeeps(s: State, original: nat, reference: string, amount: int, now: int)
    requires Inv(s) && original < |s.txns| && s.txns[original].Funding? && IsCredited(s.txns[original].status)
    requires 0 < amount <= s.txns[original].amount - ChargedBack(s.txns, original) && !Taken(s, reference)
    ensures var r := ChargebackPosted(s, original, reference, amount, now); Keeps(s, r)
  {
    hide UsersOk, DisputesOk, RefundsOk, ReversalsOk, AccountingOk, RequestsOk;
    var r := ChargebackPosted(s, original, reference, amount, now);
    ChargebackPostedEvolves(s, original, reference, amount, now);
    ChargebackPostedAccounting(s, original, reference, amount, now);
    RefundsStayRows(s, r);
    NothingReversed(s, r);
    ChargebackPostedDisputes(s, original, reference, amount, now);
    ChargebackPostedUsers(s, original, reference, amount, now);
    RequestsStay(s, r);
  }

  /** Disputes move credited fundings among the credited statuses only. */
  lemma RefundsStayRows(s: State, r: State)
    requires WellFormed(s) && RefundsOk(s.txns) && RowsEvolve(s.txns, r.txns)
    requires forall k :: 0 <= k < |s.txns| ==>
               r.txns[k] == s.txns[k] || (s.txns[k].Funding? && IsCredited(s.txns[k].status))
    requires forall k :: |s.txns| <= k < |r.txns| ==> IsChargebackRow(r.txns[k])
    ensures RefundsOk(r.txns)
  {
    forall k | 0 <= k < |s.txns|
      ensures SameForRefunds(s.txns[k], r.txns[k])
    {
      assert CanBecome(s.txns[k], r.txns[k]);
    }
    RefundsStay(s, r);
  }

  lemma DisputeUpheldKeeps(s: State, d: nat)
    requires Inv(s) && d < |s.disputes| && s.disputes[d].status == Open
    ensures Keeps(s, DisputeUpheld(s, d))
  {
    hide UsersOk, DisputesOk, RefundsOk, ReversalsOk, AccountingOk, RequestsOk;
    var r := DisputeUpheld(s, d);
    OriginalIsCredited(s, d);
    DisputeUpheldEvolves(s, d);
    RecomputedAccounting(s, d, Upheld, s.txns[s.disputes[d].chargeback].reverses);
    RefundsStayRows(s, r);
    NothingReversed(s, r);
    DisputeUpheldDisputes(s, d);
    DisputeUpheldUsers(s, d);
    RequestsStay(s, r);
  }

  lemma FavoredRefunds(s: State, d: nat, now: int)
    requires WellFormed(s) && RefundsOk(s.txns) && d < |s.disputes|
             && RowOk(s.txns, |s.books.balances|, s.disputes[d].chargeback)
    requires RowsEvolve(s.txns, DisputeFavored(s, d, now).txns)
    requires IsCredited(s.txns[s.txns[s.disputes[d].chargeback].reverses].status)
    requires ReversalsOk(s.txns)
    ensures RefundsOk(DisputeFavored(s, d, now).txns) && ReversalsOk(DisputeFavored(s, d, now).txns)
  {
    var c := s.disputes[d].chargeback;
    var o := s.txns[c].reverses;
    var row := ResolutionRow(s, c, now);
    var txns := FavoredRows(s.txns, Ruled(s.disputes, d, Resolved), o, row);
    assert DisputeFavored(s, d, now).txns == txns;
    RefundsStayRows(s, s.(txns := txns));
    NothingReversed(s, s.(txns := txns));
  }

  lemma DisputeFavoredKeeps(s: State, d: nat, now: int)
    requires Inv(s) && d < |s.disputes| && s.disputes[d].status == Open
    requires !Taken(s, s.txns[s.disputes[d].chargeback].reference + "-resolved")
    ensures Keeps(s, DisputeFavored(s, d, now))
  {
    hide UsersOk, DisputesOk, RefundsOk, ReversalsOk, AccountingOk, RequestsOk;
    var r := DisputeFavored(s, d, now);
    OriginalIsCredited(s, d);
    DisputeFavoredEvolves(s, d, now);
    DisputeFavoredAccounting(s, d, now);
    FavoredRefunds(s, d, now);
    DisputeFavoredDisputes(s, d, now);
    DisputeFavoredUsers(s, d, now);
    RequestsStay(s, r);
  }

  lemma RequestsChangeKeeps(s: State, r: State)
    requires Inv(s) && r == s.(requests := r.requests) && RequestsOk(r) && |s.requests| <= |r.requests|
    requires forall q :: 0 <= q < |r.requests| ==>
               r.requests[q].requester < |s.users| && r.requests[q].payer < |s.users| && 0 < r.requests[q].amount
    requires forall q :: 0 <= q < |s.requests| ==> RequestCanBecome(s.requests[q], r.requests[q])
    ensures Keeps(s, r)
  {
    NothingMovedAccounting(s, r);
    forall u | 0 <= u < |r.users|
      ensures UserOk(r, u)
    {
      assert UserOk(s, u);
    }
  }

  lemma PaymentKeeps(s: State, posted: State, r: nat)
    requires Inv(s) && Keeps(s, posted) && posted.requests == s.requests && r < |s.requests|
             && s.requests[r].status == Outstanding
    requires PaidBy(posted.txns, s.requests[r], |s.txns|)
    ensures Keeps(s, posted.(requests := s.requests[r := s.requests[r].(status := Paid,
            transactionId := Some(|s.txns|))]))
  {
    hide UsersOk, DisputesOk, RefundsOk, ReversalsOk, AccountingOk, RequestsOk;
    var x := posted.(requests := s.requests[r := s.requests[r].(status := Paid, transactionId := Some(|s.txns|))]);
    PaidKeepsRequests(s, posted, r);
    RequestsChangeKeeps(posted, x);
    EvolvesTransitive(s, posted, x);
  }

  lemma PaysRequestKeeps(s: State, r: nat, payer: nat, reference: string, fee: int, visibility: Visibility, c: Context)
    requires Inv(s) && 0 <= fee
    ensures Keeps(s, PayRequest(s, r, payer, reference, fee, visibility, c).0)
  {
    hide UsersOk, DisputesOk, RefundsOk, ReversalsOk, AccountingOk, RequestsOk;
    if PayRequest(s, r, payer, reference, fee, visibility, c).1.Acted? {
      var o := OrderFor(s.requests[r], reference, fee, visibility);
      TransfersKeeps(s, o, c);
      var posted := Transfer(s, o, c).0;
      assert posted.txns == s.txns + [TransferRow(o, c)];
      PaymentKeeps(s, posted, r);
    } else {
      UnchangedKeeps(s);
    }
  }

  lemma ResolvesDisputeKeeps(s: State, reference: string, ruling: Ruling, now: int)
    requires Inv(s)
    ensures var r := ResolveDispute(s, reference, ruling, now).0; Keeps(s, r)
  {
    var found := FindDispute(s.disputes, reference);
    if found.Some? && s.disputes[found.value].status == Open {
      var d := found.value;
      if ruling.Upholds? {
        DisputeUpheldKeeps(s, d);
      } else if ruling.amount == s.disputes[d].amount
          && !Taken(s, s.txns[s.disputes[d].chargeback].reference + "-resolved") {
        DisputeFavoredKeeps(s, d, now);
      }
    }
  }

  lemma FundingNotStartedKeeps(s: State, reference: string)
    requires Inv(s) && Enabled(s, FundingNotStarted(reference))
    ensures Keeps(s, MarkFundingFailed(s, reference))
  {
    if Find(s.txns, reference).Some? {
      QuietRestatusKeeps(s, Find(s.txns, reference).value, Failed);
    } else {
      UnchangedKeeps(s);
    }
  }

  lemma ReportsRefundPaidKeeps(s: State, reference: string, amount: int)
    requires Inv(s)
    ensures Keeps(s, SettleRefund(s, reference, amount).0)
  {
    if SettleRefund(s, reference, amount).1.Acted? {
      assert RowOk(s.txns, |s.books.balances|, Find(s.txns, reference).value);
      RefundSettledKeepsInv(s, Find(s.txns, reference).value);
    } else {
      UnchangedKeeps(s);
    }
  }

  lemma ReportsRefundFailedKeeps(s: State, reference: string)
    requires Inv(s)
    ensures Keeps(s, FailRefund(s, reference).0)
  {
    if FailRefund(s, reference).1.Acted? {
      RefundFailedKeepsInv(s, Find(s.txns, reference).value);
    } else {
      UnchangedKeeps(s);
    }
  }

  lemma ReversesWithdrawalKeeps(s: State, reference: string, now: int)
    requires Inv(s)
    ensures Keeps(s, ReverseWithdrawal(s, reference, now).0)
  {
    if ReverseWithdrawal(s, reference, now).1.Acted? {
      WithdrawalReversedKeeps(s, Find(s.txns, reference).value, now);
    } else {
      UnchangedKeeps(s);
    }
  }

  lemma CompletesWithdrawalKeeps(s: State, reference: string, amount: int)
    requires Inv(s)
    ensures Keeps(s, CompleteWithdrawal(s, reference, amount).0)
  {
    if CompleteWithdrawal(s, reference, amount).1.Acted? {
      QuietRestatusKeeps(s, Find(s.txns, reference).value, Completed);
    } else {
      UnchangedKeeps(s);
    }
  }

  lemma RecordsChargebackKeeps(s: State, original: nat, reference: string, amount: int, now: int)
    requires Inv(s) && Enabled(s, RecordsChargeback(original, reference, amount, now))
    ensures Keeps(s, RecordChargeback(s, original, reference, amount, now).0)
  {
    if RecordChargeback(s, original, reference, amount, now).1.Acted? {
      ChargebackPostedKeeps(s, original, reference, amount, now);
    } else {
      UnchangedKeeps(s);
    }
  }

  lemma CreatesRequestKeeps(s: State, requester: nat, payer: nat, amount: int, note: Option<string>, expiresAt: int,
      allowed: bool)
    requires Inv(s) && requester < |s.users| && payer < |s.users| && 0 < amount
    ensures Keeps(s, CreateRequest(s, requester, payer, amount, note, expiresAt, allowed).0)
  {
    RequestsChangeKeeps(s, CreateRequest(s, requester, payer, amount, note, expiresAt, allowed).0);
  }

  lemma ClosesRequestKeeps(s: State, r: nat, actor: nat, closing: RequestStatus, now: int)
    requires Inv(s) && closing in {Cancelled, Declined}
    ensures Keeps(s, CloseRequest(s, r, actor, closing, now).0)
  {
    RequestsChangeKeeps(s, CloseRequest(s, r, actor, closing, now).0);
  }

  /** The invariant, and that nothing written once is ever unwritten, over one transaction. */
  lemma StepKeepsInv(s: State, op: Op)
    requires Inv(s) && Enabled(s, op)
    ensures Keeps(s, Step(s, op))
  {
    match op
    case Registers => RegistersKeeps(s);
    case Verifies(user, proof) => VerifiesKeeps(s, user, proof);
    case InitiatesFunding(user, reference, amount, now) => InitiatesFundingKeeps(s, user, reference, amount, now);
    case FundingNotStarted(reference) => FundingNotStartedKeeps(s, reference);
    case ReportsFunding(report, now) => ReportsFundingKeeps(s, report, now);
    case StartsRefund(funding, now) => StartsRefundKeeps(s, funding, now);
    case ReportsRefundPaid(reference, amount) => ReportsRefundPaidKeeps(s, reference, amount);
    case ReportsRefundFailed(reference) => ReportsRefundFailedKeeps(s, reference);
    case Transfers(o, c) => TransfersKeeps(s, o, c);
    case Withdraws(o, c) => WithdrawsKeeps(s, o, c);
    case ReversesWithdrawal(reference, now) => ReversesWithdrawalKeeps(s, reference, now);
    case CompletesWithdrawal(reference, amount) => CompletesWithdrawalKeeps(s, reference, amount);
    case RecordsChargeback(original, reference, amount, now) => RecordsChargebackKeeps(s, original, reference, amount,
        now);
    case ResolvesDispute(reference, ruling, now) => ResolvesDisputeKeeps(s, reference, ruling, now);
    case CreatesRequest(requester, payer, amount, note, expiresAt, allowed) =>
      CreatesRequestKeeps(s, requester, payer, amount, note, expiresAt, allowed);
    case ClosesRequest(r, actor, closing, now) => ClosesRequestKeeps(s, r, actor, closing, now);
    case PaysRequest(r, payer, reference, fee, visibility, c) => PaysRequestKeeps(s, r, payer, reference, fee,
        visibility, c);
  }

  // ----- Runs -----

  function Init(limits: Limits): State {
    State(Books([0, 0, 0, 0, 0], []), [], [], [], [], limits)
  }

  lemma InitInv(limits: Limits)
    requires LimitsRise(limits) && LimitsNonNegative(limits)
    ensures Inv(Init(limits))
  {
  }

  /** A transaction whose caller breaks an assumption does not happen. */
  ghost function Next(s: State, op: Op): State {
    if WellFormed(s) && DisputesMatchRows(s.txns, s.disputes) && Enabled(s, op) then Step(s, op) else s
  }

  /** The tables after a whole run: every state a run passes through is one of these. */
  ghost function Run(s: State, ops: seq<Op>): State {
    if ops == [] then s else Next(Run(s, ops[..|ops| - 1]), ops[|ops| - 1])
  }

  lemma NextKeeps(s: State, op: Op)
    requires Inv(s)
    ensures Keeps(s, Next(s, op))
  {
    hide UsersOk, RefundsOk, ReversalsOk, AccountingOk, RequestsOk;
    if Enabled(s, op) {
      StepKeepsInv(s, op);
    } else {
      UnchangedKeeps(s);
    }
  }

  lemma RunOfOne(s: State, op: Op)
    ensures Run(s, [op]) == Next(s, op)
  {
    assert [op][..0] == [] && Run(s, []) == s;
  }

  /** The invariant, and that nothing written once is ever unwritten, over a whole run. */
  lemma {:induction false} RunKeeps(s: State, ops: seq<Op>)
    requires Inv(s)
    ensures Keeps(s, Run(s, ops))
  {
    hide UsersOk, RefundsOk, ReversalsOk, AccountingOk, RequestsOk;
    if ops == [] {
      UnchangedKeeps(s);
    } else {
      var before, op := Run(s, ops[..|ops| - 1]), ops[|ops| - 1];
      RunKeeps(s, ops[..|ops| - 1]);
      NextKeeps(before, op);
      EvolvesTransitive(s, before, Next(before, op));
    }
  }
}
