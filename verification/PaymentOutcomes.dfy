/**
 Exactly when money is sent, withdrawn or requested, and then every row, balance and entry left. Nothing is
 stated through the functions that build rows or legs.
 */
module PaymentOutcomes {
  import opened Tables
  import opened Sums
  import opened Postings
  import opened Kyc
  import opened LedgerSpec
  import opened Effects
  import opened Accounting
  import opened Refunds
  import opened Reversals
  import opened DisputeRules
  import opened WalletRules
  import opened RequestRules
  import opened Runs
  import opened Guarantees
  import opened ClientFlows

  // ----- Transfers -----

  /** All that a send needs: the fee counts against the balance, but neither against the limit nor the cap. */
  ghost predicate MaySend(s: State, sender: nat, recipient: nat, amount: int, fee: int, reference: string, c: Context)
    requires WellFormed(s) && sender < |s.users| && recipient < |s.users|
  {
    && sender != recipient && !c.sawFrozen && !c.pinRejected && !c.blocked
    && MaySpend(s, sender, amount, c.now) && MayReceive(s, recipient, amount, c.now)
    && amount + fee <= s.books.balances[WalletOf(sender)] && Unused(s, reference)
  }

  lemma SendActsIffMaySend(s: State, o: TransferOrder, c: Context)
    requires WellFormed(s) && OrderOk(s, o)
    ensures var (r, outcome) := Transfer(s, o, c);
            && (outcome.Acted? <==> MaySend(s, o.sender, o.recipient, o.amount, o.fee, o.reference, c))
            && (!outcome.Acted? ==> r == s && outcome.Refused?)
  {
    hide RowsOk, UniqueReferences, CheckDailyLimit, EvaluateCap, BalanceAndPending, MaySpend, MayReceive;
    DailyLimitReads(s, o.sender, o.amount, c.now);
    CapReads(s, o.recipient, o.amount, c.now);
  }

  function SendLegs(from: nat, into: nat, amount: int, fee: int): seq<Leg> {
    if fee == 0 then [Leg(from, Debit, amount), Leg(into, Credit, amount)]
    else [Leg(from, Debit, amount + fee), Leg(into, Credit, amount), Leg(FEE_INCOME, Credit, fee)]
  }

  lemma SendMoves(b: Books, t: nat, from: nat, into: nat, amount: int, fee: int)
    requires IsWallet(from) && IsWallet(into) && from != into && from < |b.balances| && into < |b.balances| && 0 <= fee
    ensures var legs := SendLegs(from, into, amount, fee);
            && AccountsExist(b.balances, legs)
            && Moves(b, Post(b, t, legs), map[from := -(amount + fee), into := amount, FEE_INCOME := fee])
            && Writes(b, Post(b, t, legs), t, legs)
  {
    hide Post, Moves, Writes;
    var legs := SendLegs(from, into, amount, fee);
    assert legs[0].account == from && legs[1].account == into && (fee != 0 ==> legs[2].account == FEE_INCOME);
    PostMoves(b, t, legs, map[from := -(amount + fee), into := amount, FEE_INCOME := fee]);
  }

  /**
   A send that acts debits its sender the amount and the fee, credits its recipient the amount and fee_income the
   fee, and adds one row that says so.
   */
  lemma SendMovesAmountAndFee(s: State, o: TransferOrder, c: Context)
    requires WellFormed(s) && OrderOk(s, o) && Transfer(s, o, c).1.Acted?
    ensures var (r, outcome) := Transfer(s, o, c);
            var from, into := FIRST_WALLET + o.sender, FIRST_WALLET + o.recipient;
            && outcome == Acted(|s.txns|)
            && r == s.(books := r.books,
                       txns := s.txns + [P2PTransfer(o.reference, Completed, o.amount, from, into, o.fee, o.note,
                                                     o.visibility, c.stamp, c.now)])
            && Moves(s.books, r.books, map[from := -(o.amount + o.fee), into := o.amount, FEE_INCOME := o.fee])
            && Writes(s.books, r.books, |s.txns|, SendLegs(from, into, o.amount, o.fee))
  {
    hide RowsOk, UniqueReferences, CheckDailyLimit, EvaluateCap, Post, Moves, Writes;
    var from, into := FIRST_WALLET + o.sender, FIRST_WALLET + o.recipient;
    assert o.sender != o.recipient;
    assert TransferLegs(from, into, o.amount, o.fee) == SendLegs(from, into, o.amount, o.fee);
    SendMoves(s.books, |s.txns|, from, into, o.amount, o.fee);
  }

  // ----- Withdrawals -----

  ghost predicate MayWithdraw(s: State, o: WithdrawalOrder, c: Context)
    requires WellFormed(s) && o.user < |s.users|
  {
    && !c.sawFrozen && !c.pinRejected && MaySpend(s, o.user, o.amount, c.now) && Unused(s, o.reference)
    && o.amount + o.platformFee + o.providerFee <= s.books.balances[WalletOf(o.user)]
  }

  lemma WithdrawActsIffMayWithdraw(s: State, o: WithdrawalOrder, c: Context)
    requires WellFormed(s) && WithdrawalOrderOk(s, o)
    ensures var (r, outcome) := Withdraw(s, o, c);
            && (outcome.Acted? <==> MayWithdraw(s, o, c))
            && (!outcome.Acted? ==> r == s && outcome.Refused?)
  {
    hide RowsOk, UniqueReferences, CheckDailyLimit, MaySpend;
    DailyLimitReads(s, o.user, o.amount, c.now);
  }

  /** The legs of a withdrawal out of a wallet, or of its reversal back into it. */
  function PayoutLegs(wallet: nat, amount: int, platformFee: int, providerFee: int, out: bool): seq<Leg> {
    var (from, into) := if out then (Debit, Credit) else (Credit, Debit);
    [Leg(wallet, from, amount + platformFee + providerFee), Leg(FLOAT, into, amount + providerFee),
     Leg(FEE_INCOME, into, platformFee), Leg(FEE_EXPENSE, from, providerFee), Leg(FEE_RECOVERY, into, providerFee)]
  }

  /** A reversal gives everything back but the cached fee_expense, which grows once more. */
  function PayoutMoved(wallet: nat, amount: int, platformFee: int, providerFee: int, out: bool): map<nat, int> {
    var sign := if out then 1 else -1;
    map[wallet := -sign * (amount + platformFee + providerFee), FLOAT := -sign * (amount + providerFee),
        FEE_INCOME := sign * platformFee, FEE_EXPENSE := providerFee, FEE_RECOVERY := sign * providerFee]
  }

  lemma PayoutMoves(b: Books, t: nat, wallet: nat, amount: int, platformFee: int, providerFee: int, out: bool)
    requires IsWallet(wallet) && wallet < |b.balances|
    ensures var legs := PayoutLegs(wallet, amount, platformFee, providerFee, out);
            && AccountsExist(b.balances, legs)
            && Moves(b, Post(b, t, legs), PayoutMoved(wallet, amount, platformFee, providerFee, out))
            && Writes(b, Post(b, t, legs), t, legs)
  {
    hide Post, Moves, Writes;
    var legs := PayoutLegs(wallet, amount, platformFee, providerFee, out);
    assert legs[0].account == wallet && legs[1].account == FLOAT && legs[2].account == FEE_INCOME;
    assert legs[3].account == FEE_EXPENSE && legs[4].account == FEE_RECOVERY;
    PostMoves(b, t, legs, PayoutMoved(wallet, amount, platformFee, providerFee, out));
  }

  /** A withdrawal that acts debits the wallet the amount and both fees before the provider is called. */
  lemma WithdrawMovesAmountAndFees(s: State, o: WithdrawalOrder, c: Context)
    requires WellFormed(s) && WithdrawalOrderOk(s, o) && Withdraw(s, o, c).1.Acted?
    ensures var (r, outcome) := Withdraw(s, o, c);
            var wallet := FIRST_WALLET + o.user;
            && outcome == Acted(|s.txns|)
            && r == s.(books := r.books,
                       txns := s.txns + [Withdrawal(o.reference, Pending, o.amount, wallet, o.platformFee,
                                                    o.providerFee, o.bankAccount, c.stamp, c.now)])
            && Moves(s.books, r.books, PayoutMoved(wallet, o.amount, o.platformFee, o.providerFee, true))
            && Writes(s.books, r.books, |s.txns|, PayoutLegs(wallet, o.amount, o.platformFee, o.providerFee, true))
  {
    hide RowsOk, UniqueReferences, CheckDailyLimit, Post, Moves, Writes, PayoutMoved;
    PayoutMoves(s.books, |s.txns|, FIRST_WALLET + o.user, o.amount, o.platformFee, o.providerFee, true);
  }

  /**
   A reported failure reverses exactly a pending withdrawal whose derived reference is free: the row is marked,
   one compensating row is added, and the wallet gets the amount and both fees back.
   */
  lemma FailureReversesIffPending(s: State, w: nat, now: int)
    requires WellFormed(s) && w < |s.txns| && s.txns[w].Withdrawal?
    ensures var row, derived := s.txns[w], s.txns[w].reference + "-reversal";
            var (r, outcome) := ReverseWithdrawal(s, row.reference, now);
            if row.status != Pending || !Unused(s, derived) then r == s && !outcome.Acted?
            else
              && outcome == Acted(|s.txns|)
              && r == s.(books := r.books,
                         txns := Marked(s.txns, w, Reversed)
                                 + [WithdrawalReversal(derived, Completed, row.amount, w, row.sender, now)])
              && Moves(s.books, r.books, PayoutMoved(row.sender, row.amount, row.platformFee, row.providerFee, false))
              && Writes(s.books, r.books, |s.txns|,
                        PayoutLegs(row.sender, row.amount, row.platformFee, row.providerFee, false))
  {
    FoundAt(s, w);
    assert RowOk(s.txns, |s.books.balances|, w);
    ReversalMoves(s, w, now);
  }

  lemma ReversalMoves(s: State, w: nat, now: int)
    requires WellFormed(s) && w < |s.txns| && s.txns[w].Withdrawal? && RowOk(s.txns, |s.books.balances|, w)
    ensures var r, row := WithdrawalReversed(s, w, now), s.txns[w];
            && r == s.(books := r.books,
                       txns := Marked(s.txns, w, Reversed)
                               + [WithdrawalReversal(row.reference + "-reversal", Completed, row.amount, w, row.sender,
                                                     now)])
            && Moves(s.books, r.books, PayoutMoved(row.sender, row.amount, row.platformFee, row.providerFee, false))
            && Writes(s.books, r.books, |s.txns|,
                      PayoutLegs(row.sender, row.amount, row.platformFee, row.providerFee, false))
  {
    hide RowsOk, UniqueReferences, Post, Moves, Writes, PayoutMoved;
    var row := s.txns[w];
    assert Mirror(WithdrawalLegs(row.sender, row.amount, row.platformFee, row.providerFee))
        == PayoutLegs(row.sender, row.amount, row.platformFee, row.providerFee, false);
    PayoutMoves(s.books, |s.txns|, row.sender, row.amount, row.platformFee, row.providerFee, false);
  }

  /** A reported success completes exactly a withdrawal still pending, at its own amount. */
  lemma SuccessCompletesIffPending(s: State, w: nat, reported: int)
    requires WellFormed(s) && w < |s.txns| && s.txns[w].Withdrawal?
    ensures CompleteWithdrawal(s, s.txns[w].reference, reported)
            == if s.txns[w].status == Pending && reported == s.txns[w].amount
               then (s.(txns := Marked(s.txns, w, Completed)), Acted(w)) else (s, Nothing)
  {
    FoundAt(s, w);
  }

  // ----- Money requests -----

  lemma RequestCreatedIffAllowed(s: State, requester: nat, payer: nat, amount: int, note: Option<string>,
      expiresAt: int, allowed: bool)
    ensures var (r, outcome) := CreateRequest(s, requester, payer, amount, note, expiresAt, allowed);
            if requester == payer || !allowed then r == s && outcome.Refused?
            else r == s.(requests := s.requests + [MoneyRequest(requester, payer, amount, note, Outstanding, expiresAt,
                                                                None)])
  {
  }

  ghost predicate IsPayable(s: State, q: nat, now: int) {
    q < |s.requests| && s.requests[q].status == Outstanding && now < s.requests[q].expiresAt
  }

  /** A close by the right party of a request still payable leaves exactly that request closed; any other is refused. */
  lemma ClosedIffAllowed(s: State, q: nat, actor: nat, closing: RequestStatus, now: int)
    requires closing in {Cancelled, Declined}
    ensures var (r, outcome) := CloseRequest(s, q, actor, closing, now);
            if IsPayable(s, q, now)
                && ((closing == Cancelled && actor == s.requests[q].requester)
                    || (closing == Declined && actor == s.requests[q].payer))
            then
              var was := s.requests[q];
              && outcome == Nothing
              && r == s.(requests := s.requests[q := MoneyRequest(was.requester, was.payer, was.amount, was.note,
                                                                  closing, was.expiresAt, was.transactionId)])
            else r == s && outcome == Refused(RequestNotFound)
  {
  }

  /** The note of a request, an empty one dropped. */
  function NoteOf(request: MoneyRequest): Option<string> {
    match request.note
    case None => None
    case Some(text) => if text == "" then None else Some(text)
  }

  /**
   Paying acts exactly when the payer of a payable request may send its amount to the requester. The transfer is
   for the request's amount and note, at the payment's fee and visibility, and the request is paid by it.
   */
  lemma PaymentActsIffPayable(s: State, q: nat, payer: nat, reference: string, fee: int, visibility: Visibility,
      c: Context)
    requires WellFormed(s) && 0 <= fee
    ensures var (r, outcome) := PayRequest(s, q, payer, reference, fee, visibility, c);
            && (outcome.Acted? <==>
                  && IsPayable(s, q, c.now) && s.requests[q].payer == payer
                  && MaySend(s, payer, s.requests[q].requester, s.requests[q].amount, fee, reference, c))
            && (!outcome.Acted? ==> r == s)
  {
    hide RowsOk, UniqueReferences, Transfer, MaySend, Participants;
    if q < |s.requests| && s.requests[q].payer == payer {
      SendActsIffMaySend(s, OrderFor(s.requests[q], reference, fee, visibility), c);
      NeedsUnusedReference(s, s.requests[q].payer, s.requests[q].requester, s.requests[q].amount, fee, reference, c);
    }
  }

  lemma NeedsUnusedReference(s: State, sender: nat, recipient: nat, amount: int, fee: int, reference: string,
      c: Context)
    requires WellFormed(s) && sender < |s.users| && recipient < |s.users|
    ensures MaySend(s, sender, recipient, amount, fee, reference, c) ==>
              sender != recipient && Find(s.txns, reference).None?
  {
  }

  lemma PaymentMovesAmountAndFee(s: State, q: nat, payer: nat, reference: string, fee: int, visibility: Visibility,
      c: Context)
    requires WellFormed(s) && 0 <= fee && PayRequest(s, q, payer, reference, fee, visibility, c).1.Acted?
    ensures q < |s.requests|
    ensures var (r, outcome) := PayRequest(s, q, payer, reference, fee, visibility, c);
            var was := s.requests[q];
            var from, into := FIRST_WALLET + payer, FIRST_WALLET + was.requester;
            && outcome == Acted(|s.txns|)
            && r == s.(books := r.books,
                       txns := s.txns + [P2PTransfer(reference, Completed, was.amount, from, into, fee, NoteOf(was),
                                                     visibility, c.stamp, c.now)],
                       requests := s.requests[q := MoneyRequest(was.requester, payer, was.amount, was.note, Paid,
                                                                was.expiresAt, Some(|s.txns|))])
            && Moves(s.books, r.books, map[from := -(was.amount + fee), into := was.amount, FEE_INCOME := fee])
            && Writes(s.books, r.books, |s.txns|, SendLegs(from, into, was.amount, fee))
  {
    hide RowsOk, UniqueReferences, Transfer, Moves, Writes;
    var o := OrderFor(s.requests[q], reference, fee, visibility);
    SendMovesAmountAndFee(s, o, c);
  }

  // ----- References someone else used -----

  /** One of the row's two wallet columns is this wallet. */
  predicate Names(row: Transaction, wallet: nat) {
    || ((row.P2PTransfer? || row.Withdrawal? || row.Chargeback?) && row.sender == wallet)
    || ((row.Funding? || row.P2PTransfer? || row.WithdrawalReversal? || row.ChargebackReversal?)
        && row.recipient == wallet)
  }

  /** The row with this reference names the wallet nowhere. */
  ghost predicate UsedElsewhere(s: State, reference: string, wallet: nat) {
    exists t :: 0 <= t < |s.txns| && s.txns[t].reference == reference && !Names(s.txns[t], wallet)
  }

  /** Whoever reuses a reference is told it is foreign exactly when its row is none of theirs, and then nothing else. */
  lemma ForeignIffNoneOfTheirs(s: State, o: TransferOrder, w: WithdrawalOrder)
    requires WellFormed(s)
    ensures CheckTransferReplay(s, o) == Rejected(ReferenceForeign) <==>
              UsedElsewhere(s, o.reference, WalletOf(o.sender))
    ensures CheckWithdrawalReplay(s, w) == Conflicts(ReferenceForeign) <==>
              UsedElsewhere(s, w.reference, WalletOf(w.user))
  {
    forall t | 0 <= t < |s.txns|
      ensures Find(s.txns, s.txns[t].reference) == Some(t)
    {
      FoundAt(s, t);
    }
  }

  // ----- Requests that span several transactions -----

  /**
   Of the requests under one reference this one posts exactly when the reference was unused at the first look and,
   with whatever has been committed since, the money may be sent.
   */
  lemma SendPostsIffItMay(s: State, o: TransferOrder, c: Context, between: seq<Op>, after: seq<Op>)
    requires Inv(s) && OrderOk(s, o)
    ensures Inv(Run(s, between)) && OrderOk(Run(s, between), o)
    ensures var (r, outcome) := ExecuteTransfer(s, o, c, between, after);
            var begun := Run(s, between);
            && (outcome.Acted? <==>
                  Unused(s, o.reference) && MaySend(begun, o.sender, o.recipient, o.amount, o.fee, o.reference, c))
            && (outcome.Acted? ==> (r, outcome) == Transfer(begun, o, c))
  {
    hide UsersOk, DisputesOk, RefundsOk, ReversalsOk, AccountingOk, RequestsOk, Transfer, MaySpend, MayReceive;
    RunKeeps(s, between);
    SendActsIffMaySend(Run(s, between), o, c);
    if o.sender != o.recipient {
      ReplayMatchesOnlyTheSameTransfer(s, o);
    }
  }

  lemma NotSeenIffUnused(s: State, o: WithdrawalOrder)
    ensures CheckWithdrawalReplay(s, o).NotSeen? <==> Unused(s, o.reference)
  {
  }

  /** The same of a withdrawal, if the provider does not reject it or throw. */
  lemma WithdrawalPostsIffItMay(s: State, o: WithdrawalOrder, c: Context, payout: Payout, between: seq<Op>,
      meanwhile: seq<Op>, now: int)
    requires Inv(s) && WithdrawalOrderOk(s, o)
    ensures Inv(Run(s, between)) && WithdrawalOrderOk(Run(s, between), o)
    ensures InitiateWithdrawal(s, o, c, payout, between, meanwhile, now).1.Acted? <==>
              && Unused(s, o.reference) && MayWithdraw(Run(s, between), o, c)
              && (payout.PayoutAccepted? || payout.PayoutUnknown?)
  {
    hide UsersOk, DisputesOk, RefundsOk, ReversalsOk, AccountingOk, RequestsOk, Withdraw, MaySpend,
      CheckWithdrawalReplay, ReverseWithdrawal;
    RunKeeps(s, between);
    NotSeenIffUnused(s, o);
    WithdrawActsIffMayWithdraw(Run(s, between), o, c);
  }
}
