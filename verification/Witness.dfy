/**
 Runs in which money is funded, sent, withdrawn and charged back: the results about every run have runs to be
 about, and each way a result can fail to hold is reached. Two verified users; the first is funded and sends to
 the second.
 */
module Witness {
  import opened Tables
  import opened Sums
  import opened Kyc
  import opened LedgerSpec
  import opened Evolution
  import opened Accounting
  import opened Refunds
  import opened Reversals
  import opened DisputeRules
  import opened WalletRules
  import opened RequestRules
  import opened Runs
  import opened Guarantees
  import opened ClientFlows

  const VERIFIED := User(Tier1, false, Identity(true, false, false))

  const NEWCOMER := User(Tier0, false, Identity(false, false, false))

  function Fresh(): State {
    State(Books([0, 0, 0, 0, 0, 0, 0], []), [], [], [NEWCOMER, NEWCOMER], [], SEEDED_LIMITS)
  }

  function Verified(): State {
    State(Books([0, 0, 0, 0, 0, 0, 0], []), [], [], [VERIFIED, VERIFIED], [], SEEDED_LIMITS)
  }

  // ----- Reaching states -----

  /** Some run from the empty tables ends in these. */
  ghost predicate Reachable(s: State) { exists ops :: s == Reached(SEEDED_LIMITS, ops) }

  lemma ReachableInv(s: State)
    requires Reachable(s)
    ensures Inv(s)
  {
    SeededLimitsAreConfigured();
    var ops :| s == Reached(SEEDED_LIMITS, ops);
    ReachedInv(SEEDED_LIMITS, ops);
  }

  lemma NextIsReachable(s: State, op: Op)
    requires Reachable(s)
    ensures Reachable(Next(s, op)) && Inv(Next(s, op))
  {
    var ops :| s == Reached(SEEDED_LIMITS, ops);
    assert (ops + [op])[..|ops|] == ops;
    assert Next(s, op) == Reached(SEEDED_LIMITS, ops + [op]);
    ReachableInv(Next(s, op));
  }

  lemma TwoRegister()
    ensures Reachable(Fresh())
  {
    hide UsersOk, RefundsOk, ReversalsOk, AccountingOk, RequestsOk, Evolves, Init;
    var s := Init(SEEDED_LIMITS);
    assert s == Reached(SEEDED_LIMITS, []);
    ReachableInv(s);
    NextIsReachable(s, Registers);
    NextIsReachable(Register(s), Registers);
    TwoRegistered();
  }

  lemma TwoRegistered()
    ensures Register(Register(Init(SEEDED_LIMITS))) == Fresh()
  {
    assert Register(Register(Init(SEEDED_LIMITS))).books.balances == Fresh().books.balances;
    assert Register(Register(Init(SEEDED_LIMITS))).users == Fresh().users;
  }

  lemma TwoVerified()
    ensures VerifyIdentity(VerifyIdentity(Fresh(), 0, BvnProof), 1, BvnProof) == Verified()
  {
    var one := VerifyIdentity(Fresh(), 0, BvnProof);
    assert one.users == [VERIFIED, NEWCOMER];
    assert VerifyIdentity(one, 1, BvnProof).users == [VERIFIED, VERIFIED];
  }

  lemma SetupVerifies()
    ensures Reachable(Verified()) && Inv(Verified())
  {
    hide UsersOk, DisputesOk, RefundsOk, ReversalsOk, AccountingOk, RequestsOk, Evolves, Init;
    TwoRegister();
    TwoVerified();
    ReachableInv(Fresh());
    NextIsReachable(Fresh(), Verifies(0, BvnProof));
    NextIsReachable(VerifyIdentity(Fresh(), 0, BvnProof), Verifies(1, BvnProof));
  }

  // ----- A funding -----

  predicate Fits(amount: int) { 0 < amount <= 30_000_000 }

  function PendingRow(amount: int, at: int): Transaction { Funding("f", Pending, amount, WalletOf(0), None, at) }

  function CreditedRow(amount: int, at: int): Transaction {
    Funding("f", Completed, amount, WalletOf(0), Some(amount + 15), at)
  }

  function FundingOp(amount: int, at: int): Op { InitiatesFunding(0, "f", amount, at) }

  function ReportOp(amount: int, at: int): Op { ReportsFunding(FundingReport("f", amount, 15, true, Poll), at) }

  lemma FundingIsPending(amount: int, at: int)
    requires Fits(amount)
    ensures Inv(Verified()) && Next(Verified(), FundingOp(amount, at)) == Inserted(Verified(), PendingRow(amount, at))
  {
    hide UsersOk, DisputesOk, RefundsOk, ReversalsOk, AccountingOk, RequestsOk, Evolves;
    SetupVerifies();
    SumOfNone(PendingFunding(WalletOf(0), at - PENDING_FUNDING_WINDOW_MS));
    assert SEEDED_LIMITS.For(Tier1) == TierLimit(5_000_000, Some(30_000_000));
  }

  lemma SumOfNone(f: Transaction -> int)
    ensures SumBy(f, []) == 0
  {
  }

  lemma SumOfOne(f: Transaction -> int, row: Transaction)
    ensures SumBy(f, [row]) == f(row)
  {
    assert [row] == [] + [row];
    SumAppend(f, [], row);
  }

  lemma SumOfTwo(f: Transaction -> int, x: Transaction, y: Transaction)
    ensures SumBy(f, [x, y]) == f(x) + f(y)
  {
    SumOfOne(f, x);
    assert [x, y] == [x] + [y];
    SumAppend(f, [x], y);
  }

  lemma FundingIsReported(p: State, amount: int, at: int)
    requires Fits(amount) && Inv(p) && p == Inserted(Verified(), PendingRow(amount, at))
    ensures Next(p, ReportOp(amount, at)) == FundingCredited(p, 0, 15)
  {
    hide UsersOk, RefundsOk, ReversalsOk, AccountingOk, RequestsOk, Evolves, FundingCredited, FundingHeld;
    assert Find(p.txns, "f") == Some(0);
    assert SEEDED_LIMITS.For(Tier1) == TierLimit(5_000_000, Some(30_000_000));
  }

  /** What the two funded states differ in are the rows, the requests and the two wallets. */
  ghost predicate Holding(s: State, txns: seq<Transaction>, requests: seq<MoneyRequest>, first: int, second: int) {
    && Reachable(s) && Inv(s) && s.limits == SEEDED_LIMITS && s.users == [VERIFIED, VERIFIED]
    && s.txns == txns && s.disputes == [] && s.requests == requests
    && s.books.balances[WalletOf(0)] == first && s.books.balances[WalletOf(1)] == second
  }

  lemma Funds(amount: int, at: int) returns (s: State)
    requires Fits(amount)
    ensures Holding(s, [CreditedRow(amount, at)], [], amount, 0)
  {
    hide UsersOk, DisputesOk, RefundsOk, ReversalsOk, AccountingOk, RequestsOk, Evolves, Reachable;
    var p := Inserted(Verified(), PendingRow(amount, at));
    SetupVerifies();
    FundingIsPending(amount, at);
    NextIsReachable(Verified(), FundingOp(amount, at));
    FundingIsReported(p, amount, at);
    NextIsReachable(p, ReportOp(amount, at));
    s := FundingCredited(p, 0, 15);
    var x := Claimed(p, 0, Completed, 15);
    assert x.txns == [CreditedRow(amount, at)];
    assert RowOk(s.txns, |s.books.balances|, 0);
    PostedWallet(x, 0, WalletOf(0));
    PostedWallet(x, 0, WalletOf(1));
  }

  // ----- A transfer -----

  function Order(reference: string, amount: int): TransferOrder {
    TransferOrder(reference, 0, 1, amount, 0, None, Public)
  }

  function Clear(stamp: int, now: int): Context { Context(false, false, false, stamp, now) }

  /** With one credited funding, a transfer within limit, cap and balance posts. */
  lemma TransferActs(s: State, funded: int, at: int, requests: seq<MoneyRequest>, o: TransferOrder, c: Context)
    requires Holding(s, [CreditedRow(funded, at)], requests, funded, 0)
    requires o == Order(o.reference, o.amount) && o.reference != "f" && TurnedAway(c).None? && !c.blocked
    requires 0 < o.amount <= funded && o.amount <= 5_000_000
    ensures OrderOk(s, o) && Transfer(s, o, c) == (TransferPosted(s, o, c), Acted(1))
            && CheckTransferReplay(s, o).Fresh?
  {
    hide UsersOk, DisputesOk, RefundsOk, ReversalsOk, AccountingOk, RequestsOk, Evolves, Reachable;
    SumOfOne(DebitedSince(WalletOf(0), StartOfDay(c.now)), s.txns[0]);
    SumOfOne(PendingFunding(WalletOf(1), c.now - PENDING_FUNDING_WINDOW_MS), s.txns[0]);
    assert SEEDED_LIMITS.For(Tier1) == TierLimit(5_000_000, Some(30_000_000));
    assert Find(s.txns, o.reference).None?;
  }

  lemma Sends(funded: int, at: int, o: TransferOrder, c: Context) returns (before: State, s: State)
    requires Fits(funded) && o == Order(o.reference, o.amount) && o.reference != "f"
    requires 0 < o.amount <= funded && o.amount <= 5_000_000 && TurnedAway(c).None? && !c.blocked
    ensures Holding(before, [CreditedRow(funded, at)], [], funded, 0) && OrderOk(before, o)
    ensures Transfer(before, o, c).1.Acted? && CheckTransferReplay(before, o).Fresh?
    ensures Holding(s, [CreditedRow(funded, at), TransferRow(o, c)], [], funded - o.amount, o.amount)
  {
    hide UsersOk, RefundsOk, ReversalsOk, AccountingOk, RequestsOk, Evolves, Reachable, Transfer, CheckTransferReplay;
    before := Funds(funded, at);
    TransferActs(before, funded, at, [], o, c);
    NextIsReachable(before, Transfers(o, c));
    s := TransferPosted(before, o, c);
    var x := Inserted(before, TransferRow(o, c));
    assert x.txns == [CreditedRow(funded, at), TransferRow(o, c)];
    assert RowOk(s.txns, |s.books.balances|, 1);
    PostedWallet(x, 1, WalletOf(0));
    PostedWallet(x, 1, WalletOf(1));
  }

  /** A reachable state in which the sender who read its account before a freeze leaves its twin told it failed. */
  lemma AMisledTwinIsReached() returns (s: State, o: TransferOrder, c: Context, twin: Context)
    ensures Reachable(s) && Inv(s) && OrderOk(s, o)
    ensures var (r, outcome) := ExecuteTransfer(s, o, c, [Transfers(o, twin)], []);
            outcome == Refused(AccountFrozen) && HasTransfer(r, o)
  {
    o, twin, c := Order("t", 600), Clear(0, 0), Clear(0, 0).(sawFrozen := true);
    var sent;
    s, sent := Sends(1000, 0, o, twin);
    FrozenTwinIsToldItFailed(s, o, twin, c);
  }

  // ----- Across midnight -----

  lemma EarlierDayStartsEarlier(at: int, now: int)
    requires DayOf(at) < DayOf(now)
    ensures at < StartOfDay(now)
  {
  }

  /** The first user has debited the whole daily limit on the day of `at`, and has money left. */
  lemma SpendsTheLimit(at: int) returns (s: State)
    ensures Holding(s, [CreditedRow(6_000_000, at), TransferRow(Order("t", 5_000_000), Clear(at, at))], [], 1_000_000,
            5_000_000)
    ensures Debited(s.txns, WalletOf(0), DayOf(at)) == LimitOf(s, 0).dailyDebit
  {
    var before;
    before, s := Sends(6_000_000, at, Order("t", 5_000_000), Clear(at, at));
    SumOfTwo(DebitedOn(WalletOf(0), DayOf(at)), s.txns[0], s.txns[1]);
    assert SEEDED_LIMITS.For(Tier1) == TierLimit(5_000_000, Some(30_000_000));
  }

  /** Checked on a later day, a transfer stamped on the spent day posts, and takes that day above the limit. */
  lemma LateTransferExceedsLimit(c: Context) returns (s: State, o: TransferOrder)
    requires DayOf(c.stamp) < DayOf(c.now) && TurnedAway(c).None? && !c.blocked
    ensures Reachable(s) && Inv(s) && OrderOk(s, o) && Transfer(s, o, c).1.Acted?
    ensures LimitOf(s, o.sender).dailyDebit < Debited(Transfer(s, o, c).0.txns, WalletOf(o.sender), DayOf(c.stamp))
  {
    hide UsersOk, DisputesOk, RefundsOk, ReversalsOk, AccountingOk, RequestsOk, Evolves, Reachable;
    s := SpendsTheLimit(c.stamp);
    o := Order("u", 1);
    EarlierDayStartsEarlier(c.stamp, c.now);
    SumOfTwo(DebitedSince(WalletOf(0), StartOfDay(c.now)), s.txns[0], s.txns[1]);
    SumOfTwo(PendingFunding(WalletOf(1), c.now - PENDING_FUNDING_WINDOW_MS), s.txns[0], s.txns[1]);
    assert SEEDED_LIMITS.For(Tier1) == TierLimit(5_000_000, Some(30_000_000));
    assert Find(s.txns, "u").None?;
    SumAppend(DebitedOn(WalletOf(0), DayOf(c.stamp)), s.txns, TransferRow(o, c));
    assert Transfer(s, o, c).0.txns == s.txns + [TransferRow(o, c)];
  }

  lemma LateWithdrawalExceedsLimit(c: Context) returns (s: State, o: WithdrawalOrder)
    requires DayOf(c.stamp) < DayOf(c.now) && TurnedAway(c).None?
    ensures Reachable(s) && Inv(s) && WithdrawalOrderOk(s, o) && Withdraw(s, o, c).1.Acted?
    ensures LimitOf(s, o.user).dailyDebit < Debited(Withdraw(s, o, c).0.txns, WalletOf(o.user), DayOf(c.stamp))
  {
    hide UsersOk, DisputesOk, RefundsOk, ReversalsOk, AccountingOk, RequestsOk, Evolves, Reachable;
    s := SpendsTheLimit(c.stamp);
    o := WithdrawalOrder("u", 0, 1, 0, 0, "bank");
    EarlierDayStartsEarlier(c.stamp, c.now);
    SumOfTwo(DebitedSince(WalletOf(0), StartOfDay(c.now)), s.txns[0], s.txns[1]);
    assert SEEDED_LIMITS.For(Tier1) == TierLimit(5_000_000, Some(30_000_000));
    assert Find(s.txns, "u").None?;
    SumAppend(DebitedOn(WalletOf(0), DayOf(c.stamp)), s.txns, WithdrawalRow(o, c));
    assert Withdraw(s, o, c).0.txns == s.txns + [WithdrawalRow(o, c)];
  }

  /**
   The check keeps the stamped day within the limit, in every state and for every transfer that posts, exactly
   when the row is not stamped before the day of the check. It then is not only for the state at hand: with an
   earlier stamp a reachable state fails.
   */
  lemma TransferCheckKeepsStampedDayIffNotEarlier(c: Context)
    requires TurnedAway(c).None? && !c.blocked
    ensures (forall s, o :: Inv(s) && OrderOk(s, o) && Transfer(s, o, c).1.Acted? ==>
               Debited(Transfer(s, o, c).0.txns, WalletOf(o.sender), DayOf(c.stamp)) <= LimitOf(s, o.sender).dailyDebit)
            <==> DayOf(c.now) <= DayOf(c.stamp)
  {
    if DayOf(c.now) <= DayOf(c.stamp) {
      forall s, o | Inv(s) && OrderOk(s, o) && Transfer(s, o, c).1.Acted?
        ensures Debited(Transfer(s, o, c).0.txns, WalletOf(o.sender), DayOf(c.stamp)) <= LimitOf(s, o.sender).dailyDebit
      {
        TransferInTimeFits(s, o, c);
      }
    } else {
      var s, o := LateTransferExceedsLimit(c);
    }
  }

  lemma WithdrawalCheckKeepsStampedDayIffNotEarlier(c: Context)
    requires TurnedAway(c).None?
    ensures (forall s, o :: Inv(s) && WithdrawalOrderOk(s, o) && Withdraw(s, o, c).1.Acted? ==>
               Debited(Withdraw(s, o, c).0.txns, WalletOf(o.user), DayOf(c.stamp)) <= LimitOf(s, o.user).dailyDebit)
            <==> DayOf(c.now) <= DayOf(c.stamp)
  {
    if DayOf(c.now) <= DayOf(c.stamp) {
      forall s, o | Inv(s) && WithdrawalOrderOk(s, o) && Withdraw(s, o, c).1.Acted?
        ensures Debited(Withdraw(s, o, c).0.txns, WalletOf(o.user), DayOf(c.stamp)) <= LimitOf(s, o.user).dailyDebit
      {
        WithdrawalInTimeFits(s, o, c);
      }
    } else {
      var s, o := LateWithdrawalExceedsLimit(c);
    }
  }

  // ----- A reference in the way -----

  /**
   A transfer has the reference the withdrawal's reversal needs: rejected, it is answered as failed and stays
   debited.
   */
  lemma ATakenReversalIsReached() returns (s: State, o: WithdrawalOrder, c: Context)
    ensures Reachable(s) && Posts(s, o, c)
    ensures var (r, outcome) := InitiateWithdrawal(s, o, c, PayoutRejected, [], [], 0);
            outcome.Refused? && !WithdrawalAnswerIsRight(r, o, outcome)
  {
    hide UsersOk, DisputesOk, RefundsOk, ReversalsOk, AccountingOk, RequestsOk, Evolves, Reachable,
         InitiateWithdrawal, WithdrawalAnswerIsRight;
    o, c := WithdrawalOrder("w", 0, 100, 0, 0, "bank"), Clear(0, 0);
    var taken := Order("w" + "-reversal", 600);
    assert |taken.reference| == 10;
    var before;
    before, s := Sends(1000, 0, taken, c);
    SumOfTwo(DebitedSince(WalletOf(0), StartOfDay(0)), s.txns[0], s.txns[1]);
    assert SEEDED_LIMITS.For(Tier1) == TierLimit(5_000_000, Some(30_000_000));
    assert Find(s.txns, "w").None? && s.txns[1].reference == "w" + "-reversal";
    RejectedWithReversalTaken(s, o, c, 0);
  }

  /** The chargeback takes what the transfer left and more. */
  lemma ChargesBack(s: State, o: TransferOrder, c: Context)
    requires Holding(s, [CreditedRow(1000, 0), TransferRow(o, c)], [], 1000 - o.amount, o.amount) && 0 < o.amount
    requires o.reference != "c"
    ensures var r := Next(s, RecordsChargeback(0, "c", 1000, 3));
            && Reachable(r) && Inv(r) && |r.users| == 2 && HasWallet(r, 0) && r.books.balances[WalletOf(0)] == -o.amount
            && r.disputes == [Dispute(2, "c", Open, 1000)]
            && 2 < |r.txns| && r.txns[2].reference == "c" && r.txns[1] == TransferRow(o, c)
  {
    hide UsersOk, RefundsOk, ReversalsOk, AccountingOk, RequestsOk, Evolves, Reachable;
    NextIsReachable(s, RecordsChargeback(0, "c", 1000, 3));
    SumOfTwo(ChargedAgainst(0), s.txns[0], s.txns[1]);
    assert RowOk(s.txns, |s.books.balances|, 0) && Find(s.txns, "c").None?;
    PostedWallet(Inserted(s, ChargebackRow(s, 0, "c", 1000, 3)), 2, WalletOf(0));
    assert Next(s, RecordsChargeback(0, "c", 1000, 3)) == ChargebackPosted(s, 0, "c", 1000, 3);
  }

  /** A reachable state with a frozen owner of a negative wallet. */
  lemma ANegativeFrozenWalletIsReached() returns (s: State)
    ensures Reachable(s) && |s.users| == 2 && HasWallet(s, 0) && s.books.balances[WalletOf(0)] == -600
            && s.users[0].frozen
  {
    hide DisputesOk, RefundsOk, ReversalsOk, AccountingOk, RequestsOk, Evolves, Reachable, Next;
    var o := Order("t", 600);
    var before, sent := Sends(1000, 0, o, Clear(0, 0));
    ChargesBack(sent, o, Clear(0, 0));
    s := Next(sent, RecordsChargeback(0, "c", 1000, 3));
    assert UserOk(s, 0);
  }

  /** A transfer has the reference the ruling's compensating row needs: the dispute stays open. */
  lemma ATakenResolutionIsReached() returns (s: State)
    ensures Reachable(s) && Inv(s) && |s.disputes| == 1 && s.disputes[0].status == Open
    ensures var (r, outcome) := ResolveDispute(s, s.disputes[0].reference, Favors(s.disputes[0].amount), 4);
            !outcome.Acted? && |r.disputes| == 1 && r.disputes[0].status == Open
  {
    hide UsersOk, RefundsOk, ReversalsOk, AccountingOk, RequestsOk, Evolves, Reachable, Next;
    var o := Order("c" + "-resolved", 600);
    assert |o.reference| == 10;
    var before, sent := Sends(1000, 0, o, Clear(0, 0));
    ChargesBack(sent, o, Clear(0, 0));
    s := Next(sent, RecordsChargeback(0, "c", 1000, 3));
    assert s.txns[1].reference == "c" + "-resolved";
    FavourIsGrantedIffReferenceFree(s, 0, 4);
  }

  // ----- A payment overwritten -----

  function Requested(): MoneyRequest { MoneyRequest(1, 0, 600, None, Outstanding, 100, None) }

  lemma Requests() returns (s: State)
    ensures Holding(s, [CreditedRow(1000, 0)], [Requested()], 1000, 0)
  {
    hide UsersOk, RefundsOk, ReversalsOk, AccountingOk, RequestsOk, Evolves, Reachable;
    var funded := Funds(1000, 0);
    NextIsReachable(funded, CreatesRequest(1, 0, 600, None, 100, true));
    s := Next(funded, CreatesRequest(1, 0, 600, None, 100, true));
  }

  lemma Pays(s: State, c: Context)
    requires Holding(s, [CreditedRow(1000, 0)], [Requested()], 1000, 0) && TurnedAway(c).None? && !c.blocked
             && c.now < 100
    ensures var t := Next(s, PaysRequest(0, 0, "p", 0, Public, c)); |t.requests| == 1 && t.requests[0].status == Paid
  {
    hide UsersOk, RefundsOk, ReversalsOk, AccountingOk, RequestsOk, Evolves, Reachable, Transfer, CheckTransferReplay;
    TransferActs(s, 1000, 0, s.requests, Order("p", 600), c);
  }

  /** A cancel reads the request, the payment commits, and the save overwrites it. */
  lemma AnOverwrittenPaymentIsReached() returns (s: State, op: Op)
    ensures Reachable(s) && Inv(s) && |s.requests| == 1 && CloseRequest(s, 0, 1, Cancelled, 1).1 == Nothing
    ensures var t := Next(s, op);
            |t.requests| == 1 && t.requests[0].status == Paid && !Keeps(t, SavedClose(s, t, 0, 1, Cancelled, 1))
  {
    hide UsersOk, DisputesOk, RefundsOk, ReversalsOk, AccountingOk, RequestsOk, Evolves, Reachable, Keeps, Next;
    s := Requests();
    op := PaysRequest(0, 0, "p", 0, Public, Clear(1, 1));
    Pays(s, Clear(1, 1));
    RunOfOne(s, op);
    SavedCloseIsSafeIffUndecided(s, [op], 0, 1, Cancelled, 1);
  }
}
