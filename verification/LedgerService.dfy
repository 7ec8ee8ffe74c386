/**
 The service that moves the money. One method per database transaction; the tables are its fields, each
 new balance is computed once and written to the account and to the entry that explains it, and a
 transaction that throws after a write restores the tables it began with.
 */
module LedgerServices {
  import opened Tables
  import opened Sums
  import opened Postings
  import opened Kyc
  import opened LedgerSpec
  import opened TransferEffects
  import opened Runs

  class LedgerService {
    var balances: seq<int>
    var entries: seq<Entry>
    var txns: seq<Transaction>
    var disputes: seq<Dispute>
    var users: seq<User>
    var requests: seq<MoneyRequest>
    var limits: Limits

    function Tables(): State
      reads this
    {
      State(Books(balances, entries), txns, disputes, users, requests, limits)
    }

    constructor (configured: Limits)
      ensures Tables() == Init(configured)
    {
      balances, entries := [0, 0, 0, 0, 0], [];
      txns, disputes, users, requests := [], [], [], [];
      limits := configured;
    }

    method Rollback(saved: State)
      modifies this
      ensures Tables() == saved
    {
      balances, entries := saved.books.balances, saved.books.entries;
      txns, disputes, users, requests, limits := saved.txns, saved.disputes, saved.users, saved.requests, saved.limits;
    }

    // ----- Guarded updates and inserts -----

    /** `UPDATE ... SET status WHERE id AND status IN (from)`. */
    method Flip(t: nat, from: set<Status>, to: Status) returns (affected: bool)
      requires t < |txns|
      modifies this`txns
      ensures affected <==> old(txns)[t].status in from
      ensures Tables() == if affected then Restatus(old(Tables()), t, to) else old(Tables())
    {
      affected := txns[t].status in from;
      if affected {
        txns := txns[t := WithStatus(txns[t], to)];
      }
    }

    /** Fails on the unique reference. */
    method Insert(row: Transaction) returns (inserted: bool)
      modifies this`txns
      ensures inserted <==> !Taken(old(Tables()), row.reference)
      ensures Tables() == if inserted then Inserted(old(Tables()), row) else old(Tables())
    {
      inserted := Find(txns, row.reference).None?;
      if inserted {
        txns := txns + [row];
      }
    }

    // ----- Users -----

    method Register()
      modifies this
      ensures Tables() == LedgerSpec.Register(old(Tables()))
    {
      users := users + [User(Tier0, false, Identity(false, false, false))];
      balances := balances + [0];
    }

    method VerifyIdentity(user: nat, proof: Proof)
      requires user < |users|
      modifies this
      ensures Tables() == LedgerSpec.VerifyIdentity(old(Tables()), user, proof)
    {
      var id := WithProof(users[user].identity, proof);
      users := users[user := users[user].(identity := id)];
      var derived := DeriveTier(id);
      if TierRank(users[user].tier) < TierRank(derived) {
        users := users[user := users[user].(tier := derived)];
      }
    }

    // ----- Fundings -----

    method InitiateFunding(user: nat, reference: string, amount: int, now: int) returns (outcome: Outcome)
      requires WellFormed(Tables()) && user < |users|
      modifies this
      ensures (Tables(), outcome) == LedgerSpec.InitiateFunding(old(Tables()), user, reference, amount, now)
    {
      var pending := SumBy(PendingFunding(WalletOf(user), now - PENDING_FUNDING_WINDOW_MS), txns);
      var verdict := EvaluateCap(limits.For(users[user].tier), balances[WalletOf(user)], pending, amount);
      if verdict.ZeroCap? {
        return Refused(KycRequired);
      }
      if verdict.OverCap? {
        return Refused(BalanceCapExceeded);
      }
      var inserted := Insert(FundingRow(user, reference, amount, now));
      outcome := if inserted then Acted(|txns| - 1) else Refused(ReferenceTaken);
    }

    method MarkFundingFailed(reference: string)
      modifies this
      ensures Tables() == LedgerSpec.MarkFundingFailed(old(Tables()), reference)
    {
      var found := Find(txns, reference);
      if found.Some? {
        txns := txns[found.value := WithStatus(txns[found.value], Failed)];
      }
    }

    /** Exactly one caller per pending funding gets the row; a failure or a wrong amount fails it instead. */
    method ClaimPendingFunding(reference: string, net: int, success: bool,
        successStatus: Status) returns (claimed: Option<nat>)
      requires successStatus in {Completed, Held}
      modifies this`txns
      ensures var found := Find(old(txns), reference);
              if found.Some? && old(txns)[found.value].Funding? && old(txns)[found.value].status == Pending then
                var good := success && net == old(txns)[found.value].amount;
                claimed == (if good then found else None)
                && Tables() == Restatus(old(Tables()), found.value, if good then successStatus else Failed)
              else claimed == None && Tables() == old(Tables())
    {
      var found := Find(txns, reference);
      if found.None? || !txns[found.value].Funding? {
        return None;
      }
      var amountMismatch := success && net != txns[found.value].amount;
      var nextStatus := if success && !amountMismatch then successStatus else Failed;
      var affected := Flip(found.value, {Pending}, nextStatus);
      claimed := if !affected || nextStatus == Failed then None else found;
    }

    /** The entries of a funding, into its wallet or into suspense, and the gross the customer paid. */
    method PostFundingEntries(t: nat, into: nat, net: int, fee: int)
      requires t < |txns| && txns[t].Funding? && FIRST_WALLET <= |balances|
      requires into < |balances| && (IsWallet(into) || into == SUSPENSE)
      modifies this`balances, this`entries, this`txns
      ensures AccountsExist(old(balances), FundingLegs(into, net, fee))
      ensures Books(balances, entries) == Post(Books(old(balances), old(entries)), t, FundingLegs(into, net, fee))
      ensures txns == old(txns)[t := old(txns)[t].(gross := Some(net + fee))]
    {
      ghost var before := Books(balances, entries);
      var newInto := balances[into] + net;
      var newFloat := balances[FLOAT] + net;
      var newFeeExpense := balances[FEE_EXPENSE] + fee;
      var newFeeRecovery := balances[FEE_RECOVERY] + fee;
      balances := balances[FLOAT := newFloat][into := newInto]
                          [FEE_EXPENSE := newFeeExpense][FEE_RECOVERY := newFeeRecovery];
      entries := entries + [Entry(t, Leg(FLOAT, Debit, net), newFloat),
                            Entry(t, Leg(into, Credit, net), newInto),
                            Entry(t, Leg(FEE_EXPENSE, Debit, fee), newFeeExpense),
                            Entry(t, Leg(FEE_RECOVERY, Credit, fee), newFeeRecovery)];
      txns := txns[t := txns[t].(gross := Some(net + fee))];
      var floatLeg, intoLeg := Leg(FLOAT, Debit, net), Leg(into, Credit, net);
      Post4(before, t, floatLeg, intoLeg, Leg(FEE_EXPENSE, Debit, fee), Leg(FEE_RECOVERY, Credit, fee));
    }

    /** The pending funding a report is about, if it still is pending. */
    function PendingFor(reference: string): (t: Option<nat>)
      reads this
      ensures t.Some? ==> t.value < |txns| && txns[t.value].Funding? && txns[t.value].status == Pending
    {
      var found := Find(txns, reference);
      if found.Some? && txns[found.value].Funding? && txns[found.value].status == Pending then found else None
    }

    method PostFunding(reference: string, net: int, fee: int, success: bool) returns (credited: bool)
      requires WellFormed(Tables()) && 0 <= fee
      modifies this
      ensures var t := old(PendingFor(reference));
              if t.None? then !credited && Tables() == old(Tables())
              else if success && net == old(txns)[t.value].amount then credited
                  && Tables() == FundingCredited(old(Tables()), t.value, fee)
              else !credited && Tables() == Restatus(old(Tables()), t.value, Failed)
    {
      ghost var before := Tables();
      var claimed := ClaimPendingFunding(reference, net, success, Completed);
      if claimed.None? {
        return false;
      }
      assert RowOk(before.txns, |balances|, claimed.value);
      PostFundingEntries(claimed.value, txns[claimed.value].recipient, net, fee);
      credited := true;
    }

    method HoldFunding(reference: string, net: int, fee: int, now: int) returns (outcome: Outcome)
      requires WellFormed(Tables()) && 0 <= fee
      modifies this
      ensures var t := old(PendingFor(reference));
              if t.None? then outcome == Nothing && Tables() == old(Tables())
              else if net != old(txns)[t.value].amount then outcome == Nothing
                  && Tables() == Restatus(old(Tables()), t.value, Failed)
              else if Taken(old(Tables()), RefundReference(t.value, 1)) then outcome == Refused(ReferenceTaken)
                  && Tables() == old(Tables())
              else outcome == Acted(t.value) && Tables() == FundingHeld(old(Tables()), t.value, fee, now)
    {
      hide UniqueReferences, EvaluateCap;
      var saved := Tables();
      var claimed := ClaimPendingFunding(reference, net, true, Held);
      if claimed.None? {
        return Nothing;
      }
      var t := claimed.value;
      assert RowOk(saved.txns, |balances|, t);
      PostFundingEntries(t, SUSPENSE, net, fee);
      SameReferences(saved.txns, txns, RefundReference(t, 1));
      var attempt := InsertRefundAttempt(t, 1, now);
      if attempt.None? {
        Rollback(saved);
        return Refused(ReferenceTaken);
      }
      outcome := Acted(t);
    }

    /** A success is checked against the balance cap in the transaction that posts it; a failure moves no money. */
    method CompleteFunding(report: FundingReport, now: int) returns (outcome: Outcome)
      requires WellFormed(Tables()) && 0 <= report.fee
      modifies this
      ensures (Tables(), outcome) == ReportFunding(old(Tables()), report, now)
    {
      var pending := PendingFor(report.reference);
      if !report.success || pending.None? {
        var credited := PostFunding(report.reference, report.amount, report.fee, report.success);
        assert !credited;
        return Nothing;
      }
      assert RowOk(txns, |balances|, pending.value);
      var requested, wallet := txns[pending.value].amount, txns[pending.value].recipient;
      var net := report.amount;
      if report.source.Webhook? && report.amount != requested {
        net := report.amount - report.fee;
      }
      var verdict := EvaluateCap(limits.For(users[OwnerOf(wallet)].tier), balances[wallet], 0, net);
      if verdict.Allowed? {
        var credited := PostFunding(report.reference, net, report.fee, true);
        return if credited then Acted(pending.value) else Nothing;
      }
      outcome := HoldFunding(report.reference, net, report.fee, now);
    }

    // ----- Refunds -----

    method InsertRefundAttempt(funding: nat, attempt: nat, now: int) returns (row: Option<nat>)
      requires funding < |txns|
      modifies this`txns
      ensures row == if Taken(old(Tables()), RefundReference(funding, attempt)) then None else Some(|old(txns)|)
      ensures Tables() == if row.Some? then Inserted(old(Tables()),
              RefundAttempt(old(Tables()), funding, attempt, now)) else old(Tables())
    {
      var inserted := Insert(FundingRefund(RefundReference(funding, attempt), Pending, txns[funding].amount, funding,
          attempt, now));
      row := if inserted then Some(|txns| - 1) else None;
    }

    method StartRefundAttempt(funding: nat, now: int) returns (outcome: Outcome)
      requires WellFormed(Tables())
      modifies this
      ensures (Tables(), outcome) == LedgerSpec.StartRefundAttempt(old(Tables()), funding, now)
    {
      if |txns| <= funding || !txns[funding].Funding? || txns[funding].status != Held {
        return Nothing;
      }
      if exists a :: 0 <= a < |txns| && IsAttemptIn(funding, Pending)(txns[a]) == 1 {
        return Nothing;
      }
      SumNonNegative(IsAttempt(funding), txns);
      var attempt := InsertRefundAttempt(funding, SumBy(IsAttempt(funding), txns) + 1, now);
      outcome := if attempt.Some? then Acted(attempt.value) else Refused(ReferenceTaken);
    }

    method SupersedePendingAttempts(funding: nat, settled: nat)
      requires settled < |txns| && txns[settled].status != Pending
      modifies this`txns
      ensures txns == Supersede(old(txns), funding)
    {
      var i := 0;
      while i < |txns|
        invariant 0 <= i <= |txns| == |old(txns)|
        invariant forall k :: 0 <= k < i ==> txns[k] == Supersede(old(txns), funding)[k]
        invariant forall k :: i <= k < |txns| ==> txns[k] == old(txns)[k]
      {
        if i != settled && txns[i].FundingRefund? && txns[i].reverses == funding && txns[i].status == Pending {
          txns := txns[i := WithStatus(txns[i], Failed)];
        }
        i := i + 1;
      }
    }

    method PostRefundEntries(t: nat, amount: int)
      requires FIRST_WALLET <= |balances|
      modifies this`balances, this`entries
      ensures AccountsExist(old(balances), RefundLegs(amount))
      ensures Books(balances, entries)
              == Post(Books(old(balances), old(entries)), t, RefundLegs(amount))
    {
      ghost var before := Books(balances, entries);
      var newSuspense := balances[SUSPENSE] - amount;
      var newFloat := balances[FLOAT] - amount;
      balances := balances[SUSPENSE := newSuspense][FLOAT := newFloat];
      entries := entries + [Entry(t, Leg(SUSPENSE, Debit, amount), newSuspense),
          Entry(t, Leg(FLOAT, Credit, amount), newFloat)];
      Post2(before, t, Leg(SUSPENSE, Debit, amount), Leg(FLOAT, Credit, amount));
    }

    method SettleRefund(reference: string, reported: int) returns (outcome: Outcome)
      requires WellFormed(Tables())
      modifies this
      ensures (Tables(), outcome) == LedgerSpec.SettleRefund(old(Tables()), reference, reported)
    {
      ghost var before := Tables();
      var found := Find(txns, reference);
      if found.None? || !txns[found.value].FundingRefund? {
        return Nothing;
      }
      var a := found.value;
      assert RowOk(txns, |balances|, a);
      var amount, funding := txns[a].amount, txns[a].reverses;
      if reported != amount || txns[funding].status != Held {
        return Nothing;
      }
      var claimed := Flip(a, {Pending, Failed}, Completed);
      if !claimed {
        return Nothing;
      }
      txns := txns[funding := WithStatus(txns[funding], Refunded)];
      SupersedePendingAttempts(funding, a);
      PostRefundEntries(a, amount);
      assert Tables() == RefundSettled(before, a);
      outcome := Acted(a);
    }

    method FailRefund(reference: string) returns (outcome: Outcome)
      modifies this
      ensures (Tables(), outcome) == LedgerSpec.FailRefund(old(Tables()), reference)
    {
      var found := Find(txns, reference);
      if found.None? || !txns[found.value].FundingRefund? {
        return Nothing;
      }
      var updated := Flip(found.value, {Pending}, Failed);
      outcome := if updated then Acted(found.value) else Nothing;
    }

    // ----- Transfers -----

    /**
     Each new balance is computed from the locked rows before either is written: when sender and recipient
     are one account, the second write wins.
     */
    method PostTransferEntries(o: TransferOrder, c: Context) returns (outcome: Outcome)
      requires |balances| == FIRST_WALLET + |users| && o.sender < |users| && o.recipient < |users|
      modifies this
      ensures if old(balances)[WalletOf(o.sender)] < o.amount + o.fee then
                outcome == Refused(InsufficientFunds) && Tables() == old(Tables())
              else if Taken(old(Tables()), o.reference) then
                outcome == Refused(ReferenceTaken) && Tables() == old(Tables())
              else
                outcome == Acted(|old(txns)|)
                && Tables() == Inserted(old(Tables()), TransferRow(o, c)).(books :=
                     TransferEffect(old(Tables()).books, |old(txns)|, WalletOf(o.sender), WalletOf(o.recipient),
                         o.amount, o.fee))
    {
      var sender, recipient := WalletOf(o.sender), WalletOf(o.recipient);
      var hasFee := o.fee > 0;
      var debit := o.amount + o.fee;
      if balances[sender] < debit {
        return Refused(InsufficientFunds);
      }
      var t := |txns|;
      var inserted := Insert(TransferRow(o, c));
      if !inserted {
        return Refused(ReferenceTaken);
      }
      var newSender := balances[sender] - debit;
      var newRecipient := balances[recipient] + o.amount;
      balances := balances[sender := newSender];
      balances := balances[recipient := newRecipient];
      entries := entries + [Entry(t, Leg(sender, Debit, debit), newSender),
          Entry(t, Leg(recipient, Credit, o.amount), newRecipient)];
      if hasFee {
        var newFeeIncome := balances[FEE_INCOME] + o.fee;
        balances := balances[FEE_INCOME := newFeeIncome];
        entries := entries + [Entry(t, Leg(FEE_INCOME, Credit, o.fee), newFeeIncome)];
      }
      outcome := Acted(t);
    }

    method FinalizeTransfer(o: TransferOrder, c: Context) returns (outcome: Outcome)
      requires WellFormed(Tables()) && OrderOk(Tables(), o)
      modifies this
      ensures (Tables(), outcome) == Transfer(old(Tables()), o, c)
    {
      if o.sender == o.recipient {
        return Refused(SelfTransfer);
      }
      if c.sawFrozen {
        return Refused(AccountFrozen);
      }
      if c.pinRejected {
        return Refused(PinRejected);
      }
      if c.blocked {
        return Refused(UsersBlocked);
      }
      var overLimit := CheckDailyLimit(limits.For(users[o.sender].tier), txns, WalletOf(o.sender), o.amount, c.now);
      if overLimit.Some? {
        return Refused(overLimit.value);
      }
      var pending := SumBy(PendingFunding(WalletOf(o.recipient), c.now - PENDING_FUNDING_WINDOW_MS), txns);
      var verdict := EvaluateCap(limits.For(users[o.recipient].tier), balances[WalletOf(o.recipient)], pending,
          o.amount);
      if !verdict.Allowed? {
        return Refused(RecipientCannotReceive);
      }
      ghost var before := Tables();
      outcome := PostTransferEntries(o, c);
      TransferEffectIsPosting(before.books, |before.txns|, WalletOf(o.sender), WalletOf(o.recipient), o.amount, o.fee);
    }

    method PayRequest(r: nat, payer: nat, reference: string, fee: int, visibility: Visibility,
        c: Context) returns (outcome: Outcome)
      requires WellFormed(Tables()) && 0 <= fee
      modifies this
      ensures (Tables(), outcome) == LedgerSpec.PayRequest(old(Tables()), r, payer, reference, fee, visibility, c)
    {
      if |requests| <= r || requests[r].payer != payer {
        return Refused(RequestNotFound);
      }
      var q := requests[r];
      var o := OrderFor(q, reference, fee, visibility);
      if o.sender == o.recipient {
        return Refused(SelfTransfer);
      }
      match CheckTransferReplay(Tables(), o) {
        case Match(t) => return if q.transactionId == Some(t) then Replayed(t) else Refused(ReferenceForeign);
        case Rejected(error) => return Refused(error);
        case Fresh =>
      }
      if !EffectivelyPending(q, c.now) {
        return Refused(RequestNotPayable);
      }
      outcome := FinalizeTransfer(o, c);
      if outcome.Acted? {
        requests := requests[r := q.(status := Paid, transactionId := Some(outcome.txn))];
      }
    }

    // ----- Withdrawals -----

    method PostWithdrawalEntries(t: nat, wallet: nat, amount: int, platformFee: int, providerFee: int)
      requires FIRST_WALLET <= |balances| && IsWallet(wallet) && wallet < |balances|
      modifies this`balances, this`entries
      ensures AccountsExist(old(balances), WithdrawalLegs(wallet, amount, platformFee, providerFee))
      ensures Books(balances, entries)
              == Post(Books(old(balances), old(entries)), t, WithdrawalLegs(wallet, amount, platformFee, providerFee))
    {
      ghost var before := Books(balances, entries);
      var walletDebit := amount + platformFee + providerFee;
      var floatCredit := amount + providerFee;
      var newWallet := balances[wallet] - walletDebit;
      var newFloat := balances[FLOAT] - floatCredit;
      var newFeeIncome := balances[FEE_INCOME] + platformFee;
      var newFeeExpense := balances[FEE_EXPENSE] + providerFee;
      var newFeeRecovery := balances[FEE_RECOVERY] + providerFee;
      balances := balances[wallet := newWallet][FLOAT := newFloat][FEE_INCOME := newFeeIncome]
                          [FEE_EXPENSE := newFeeExpense][FEE_RECOVERY := newFeeRecovery];
      entries := entries + [Entry(t, Leg(wallet, Debit, walletDebit), newWallet),
                            Entry(t, Leg(FLOAT, Credit, floatCredit), newFloat),
                            Entry(t, Leg(FEE_INCOME, Credit, platformFee), newFeeIncome),
                            Entry(t, Leg(FEE_EXPENSE, Debit, providerFee), newFeeExpense),
                            Entry(t, Leg(FEE_RECOVERY, Credit, providerFee), newFeeRecovery)];
      Post5(before, t, Leg(wallet, Debit, walletDebit), Leg(FLOAT, Credit, floatCredit),
            Leg(FEE_INCOME, Credit, platformFee), Leg(FEE_EXPENSE, Debit, providerFee),
                Leg(FEE_RECOVERY, Credit, providerFee));
    }

    method PostWithdrawal(o: WithdrawalOrder, c: Context) returns (outcome: Outcome)
      requires WellFormed(Tables()) && WithdrawalOrderOk(Tables(), o)
      modifies this
      ensures (Tables(), outcome) == Withdraw(old(Tables()), o, c)
    {
      ghost var before := Tables();
      if c.sawFrozen {
        return Refused(AccountFrozen);
      }
      if c.pinRejected {
        return Refused(PinRejected);
      }
      var overLimit := CheckDailyLimit(limits.For(users[o.user].tier), txns, WalletOf(o.user), o.amount, c.now);
      if overLimit.Some? {
        return Refused(overLimit.value);
      }
      if balances[WalletOf(o.user)] < o.amount + o.platformFee + o.providerFee {
        return Refused(InsufficientFunds);
      }
      var inserted := Insert(WithdrawalRow(o, c));
      if !inserted {
        return Refused(ReferenceTaken);
      }
      PostWithdrawalEntries(|txns| - 1, WalletOf(o.user), o.amount, o.platformFee, o.providerFee);
      assert Tables() == WithdrawalPosted(before, o, c);
      outcome := Acted(|txns| - 1);
    }

    /** The mirror image of the withdrawal's entries, except that the fee_expense balance grows again. */
    method ReverseWithdrawalEntries(t: nat, wallet: nat, amount: int, platformFee: int, providerFee: int)
      requires FIRST_WALLET <= |balances| && IsWallet(wallet) && wallet < |balances|
      modifies this`balances, this`entries
      ensures AccountsExist(old(balances), Mirror(WithdrawalLegs(wallet, amount, platformFee, providerFee)))
      ensures Books(balances, entries)
              == Post(Books(old(balances), old(entries)), t,
                  Mirror(WithdrawalLegs(wallet, amount, platformFee, providerFee)))
    {
      ghost var before := Books(balances, entries);
      var walletCredit := amount + platformFee + providerFee;
      var floatDebit := amount + providerFee;
      var newWallet := balances[wallet] + walletCredit;
      var newFloat := balances[FLOAT] + floatDebit;
      var newFeeIncome := balances[FEE_INCOME] - platformFee;
      var newFeeExpense := balances[FEE_EXPENSE] + providerFee;
      var newFeeRecovery := balances[FEE_RECOVERY] - providerFee;
      balances := balances[wallet := newWallet][FLOAT := newFloat][FEE_INCOME := newFeeIncome]
                          [FEE_EXPENSE := newFeeExpense][FEE_RECOVERY := newFeeRecovery];
      entries := entries + [Entry(t, Leg(wallet, Credit, walletCredit), newWallet),
                            Entry(t, Leg(FLOAT, Debit, floatDebit), newFloat),
                            Entry(t, Leg(FEE_INCOME, Debit, platformFee), newFeeIncome),
                            Entry(t, Leg(FEE_EXPENSE, Credit, providerFee), newFeeExpense),
                            Entry(t, Leg(FEE_RECOVERY, Debit, providerFee), newFeeRecovery)];
      Post5(before, t, Leg(wallet, Credit, walletCredit), Leg(FLOAT, Debit, floatDebit),
            Leg(FEE_INCOME, Debit, platformFee), Leg(FEE_EXPENSE, Credit, providerFee),
                Leg(FEE_RECOVERY, Debit, providerFee));
      assert Mirror(WithdrawalLegs(wallet, amount, platformFee, providerFee))
          == [Leg(wallet, Credit, walletCredit), Leg(FLOAT, Debit, floatDebit), Leg(FEE_INCOME, Debit, platformFee),
              Leg(FEE_EXPENSE, Credit, providerFee), Leg(FEE_RECOVERY, Debit, providerFee)];
    }

    method ReverseWithdrawal(reference: string, now: int) returns (outcome: Outcome)
      requires WellFormed(Tables())
      modifies this
      ensures (Tables(), outcome) == LedgerSpec.ReverseWithdrawal(old(Tables()), reference, now)
    {
      var saved := Tables();
      var found := Find(txns, reference);
      if found.None? || !txns[found.value].Withdrawal? {
        return Nothing;
      }
      var original := txns[found.value];
      assert RowOk(txns, |balances|, found.value);
      var affected := Flip(found.value, {Pending}, Reversed);
      if !affected {
        return Nothing;
      }
      var inserted := Insert(WithdrawalReversal(original.reference
          + "-reversal", Completed, original.amount, found.value, original.sender, now));
      assert inserted <==> !Taken(saved, reference + "-reversal") by {
        SameReferences(saved.txns, Restatus(saved, found.value, Reversed).txns, reference + "-reversal");
      }
      if !inserted {
        Rollback(saved);
        return Refused(ReferenceTaken);
      }
      ReverseWithdrawalEntries(|txns| - 1, original.sender, original.amount, original.platformFee,
          original.providerFee);
      assert Tables() == WithdrawalReversed(saved, found.value, now);
      outcome := Acted(|txns| - 1);
    }

    method CompleteWithdrawal(reference: string, reported: int) returns (outcome: Outcome)
      modifies this
      ensures (Tables(), outcome) == LedgerSpec.CompleteWithdrawal(old(Tables()), reference, reported)
    {
      var found := Find(txns, reference);
      if found.None? || !txns[found.value].Withdrawal? || reported != txns[found.value].amount {
        return Nothing;
      }
      var affected := Flip(found.value, {Pending}, Completed);
      outcome := if affected then Acted(found.value) else Nothing;
    }

    // ----- Chargebacks and disputes -----

    /** A wallet's leg against float, in either direction. */
    method PostWalletAndFloat(t: nat, wallet: nat, amount: int, walletDirection: Direction)
      requires FIRST_WALLET <= |balances| && IsWallet(wallet) && wallet < |balances|
      modifies this`balances, this`entries
      ensures AccountsExist(old(balances), WalletAndFloatLegs(wallet, amount, walletDirection))
      ensures Books(balances, entries)
              == Post(Books(old(balances), old(entries)), t, WalletAndFloatLegs(wallet, amount, walletDirection))
    {
      ghost var before := Books(balances, entries);
      var change := if walletDirection.Credit? then amount else -amount;
      var newWallet := balances[wallet] + change;
      var newFloat := balances[FLOAT] + change;
      balances := balances[wallet := newWallet][FLOAT := newFloat];
      var walletEntry := Entry(t, Leg(wallet, walletDirection, amount), newWallet);
      var floatEntry := Entry(t, Leg(FLOAT, Opposite(walletDirection), amount), newFloat);
      entries := entries + if walletDirection.Debit? then [walletEntry, floatEntry] else [floatEntry, walletEntry];
      if walletDirection.Debit? {
        Post2(before, t, walletEntry.leg, floatEntry.leg);
      } else {
        Post2(before, t, floatEntry.leg, walletEntry.leg);
        assert before.balances[FLOAT := newFloat][wallet := newWallet]
            == before.balances[wallet := newWallet][FLOAT := newFloat];
      }
    }

    method RecordChargeback(original: nat, reference: string, amount: int, now: int) returns (outcome: Outcome)
      requires WellFormed(Tables()) && original < |txns| && txns[original].Funding? && 0 < amount
      modifies this
      ensures (Tables(), outcome) == LedgerSpec.RecordChargeback(old(Tables()), original, reference, amount, now)
    {
      var saved := Tables();
      assert RowOk(txns, |balances|, original);
      var remaining := txns[original].amount - SumBy(ChargedAgainst(original), txns);
      if remaining < amount {
        return Refused(ChargebackAmountExceedsRemaining);
      }
      var t, wallet := |txns|, txns[original].recipient;
      var inserted := Insert(ChargebackRow(saved, original, reference, amount, now));
      if !inserted {
        return Refused(DuplicateDisputeReference);
      }
      PostWalletAndFloat(t, wallet, amount, Debit);
      txns := txns[original := WithStatus(txns[original], Disputed)];
      if balances[wallet] < 0 {
        users := users[OwnerOf(wallet) := users[OwnerOf(wallet)].(frozen := true)];
      }
      if FindDispute(disputes, reference).Some? {
        Rollback(saved);
        return Refused(DuplicateDisputeReference);
      }
      disputes := disputes + [Dispute(t, reference, Open, amount)];
      assert Tables() == ChargebackPosted(saved, original, reference, amount, now);
      outcome := Acted(t);
    }

    /** An open sibling wins; otherwise an upheld one; otherwise the original is whole again. */
    method RecomputeOriginalTransactionStatus(original: nat)
      requires original < |txns|
      modifies this`txns
      ensures Tables() == Recomputed(old(Tables()), original)
    {
      var open, upheld, i := false, false, 0;
      while i < |disputes|
        invariant 0 <= i <= |disputes|
        invariant open <==> exists d :: 0 <= d < i && Against(txns, disputes[d], original) && disputes[d].status == Open
        invariant upheld <==> exists d ::
                    0 <= d < i && Against(txns, disputes[d], original) && disputes[d].status == Upheld
      {
        if Against(txns, disputes[i], original) {
          open := open || disputes[i].status == Open;
          upheld := upheld || disputes[i].status == Upheld;
        }
        i := i + 1;
      }
      var status := if open then Disputed else if upheld then Reversed else Completed;
      txns := txns[original := WithStatus(txns[original], status)];
    }

    method ResolveInCliqpaysFavor(d: nat, now: int) returns (outcome: Outcome)
      requires WellFormed(Tables()) && d < |disputes| && disputes[d].amount == txns[disputes[d].chargeback].amount
      modifies this
      ensures (Tables(), outcome) == ResolveInFavor(old(Tables()), d, now)
    {
      ghost var before := Tables();
      var c := disputes[d].chargeback;
      assert RowOk(txns, |balances|, c);
      var wallet, original := txns[c].sender, txns[c].reverses;
      var t := |txns|;
      var inserted := Insert(ChargebackReversal(txns[c].reference
          + "-resolved", Completed, disputes[d].amount, c, wallet, now));
      if !inserted {
        return Refused(ReferenceTaken);
      }
      PostWalletAndFloat(t, wallet, disputes[d].amount, Credit);
      var newBalance := balances[wallet];
      disputes := disputes[d := disputes[d].(status := Resolved)];
      RecomputeOriginalTransactionStatus(original);
      if 0 <= newBalance && !OpenOnWallet(txns, disputes, wallet) {
        users := users[OwnerOf(wallet) := users[OwnerOf(wallet)].(frozen := false)];
      }
      assert Tables() == DisputeFavored(before, d, now);
      outcome := Acted(t);
    }

    method ResolveDispute(reference: string, ruling: Ruling, now: int) returns (outcome: Outcome)
      requires WellFormed(Tables()) && DisputesMatchRows(txns, disputes)
      modifies this
      ensures (Tables(), outcome) == LedgerSpec.ResolveDispute(old(Tables()), reference, ruling, now)
    {
      var found := FindDispute(disputes, reference);
      if found.None? {
        return Refused(DisputeNotFound);
      }
      var d := found.value;
      if disputes[d].status != Open {
        return Refused(DisputeAlreadyResolved);
      }
      var c := disputes[d].chargeback;
      assert RowOk(txns, |balances|, c);
      if ruling.Upholds? {
        disputes := disputes[d := disputes[d].(status := Upheld)];
        RecomputeOriginalTransactionStatus(txns[c].reverses);
        return Acted(c);
      }
      if ruling.amount != disputes[d].amount {
        return Refused(DisputeAmountMismatch);
      }
      outcome := ResolveInCliqpaysFavor(d, now);
    }

    // ----- Money requests -----

    method CloseRequest(r: nat, actor: nat, closing: RequestStatus, now: int) returns (outcome: Outcome)
      requires closing in {Cancelled, Declined}
      modifies this
      ensures (Tables(), outcome) == LedgerSpec.CloseRequest(old(Tables()), r, actor, closing, now)
    {
      if |requests| <= r || !EffectivelyPending(requests[r], now) {
        return Refused(RequestNotFound);
      }
      var owner := if closing == Cancelled then requests[r].requester else requests[r].payer;
      if actor != owner {
        return Refused(RequestNotFound);
      }
      requests := requests[r := requests[r].(status := closing)];
      outcome := Nothing;
    }

    method CreateRequest(requester: nat, payer: nat, amount: int, note: Option<string>, expiresAt: int,
        allowed: bool) returns (outcome: Outcome)
      modifies this
      ensures (Tables(), outcome) == LedgerSpec.CreateRequest(old(Tables()), requester, payer, amount, note, expiresAt,
              allowed)
    {
      if requester == payer {
        return Refused(SelfTransfer);
      }
      if !allowed {
        return Refused(RecipientCannotReceive);
      }
      requests := requests + [MoneyRequest(requester, payer, amount, note, Outstanding, expiresAt, None)];
      outcome := Nothing;
    }
  }
}
