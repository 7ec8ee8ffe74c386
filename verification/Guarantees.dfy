/**
 What holds after every run: any finite sequence of transactions from the empty tables, for any limits
 that rise with the tier.
 */
module Guarantees {
  import opened Tables
  import opened Sums
  import opened Postings
  import opened Kyc
  import opened LedgerSpec
  import opened Evolution
  import opened Accounting
  import opened Refunds
  import opened Reversals
  import opened DisputeRules
  import opened WalletRules
  import opened RequestRules
  import opened Runs
  import RulingOverlap

  ghost predicate Configured(limits: Limits) { LimitsRise(limits) && LimitsNonNegative(limits) }

  /** The tables after a run from the empty ones. */
  ghost function Reached(limits: Limits, ops: seq<Op>): State { Run(Init(limits), ops) }

  lemma ReachedInv(limits: Limits, ops: seq<Op>)
    requires Configured(limits)
    ensures Inv(Reached(limits, ops))
  {
    InitInv(limits);
    RunKeeps(Init(limits), ops);
  }

  ghost predicate HasSystemAccounts(s: State) { FIRST_WALLET <= |s.books.balances| }

  ghost predicate HasWallet(s: State, u: nat) { WalletOf(u) < |s.books.balances| }

  lemma SeededLimitsAreConfigured()
    ensures Configured(SEEDED_LIMITS)
  {
  }

  // ----- The books -----

  /** The signed fold of an account's entries. */
  function Fold(entries: seq<Entry>, account: nat): int { SumBy(SignedOn(account), entries) }

  /** Where the cache departs from the fold: fee_expense, by twice every credit entry posted to it. */
  function Drift(entries: seq<Entry>, account: nat): int {
    if account == FEE_EXPENSE then 2 * SumBy(FeeExpenseCredit, entries) else 0
  }

  lemma CachedIsFoldPlusDrift(entries: seq<Entry>, account: nat)
    ensures SumBy(CachedOn(account), entries) == Fold(entries, account) + Drift(entries, account)
  {
  }

  /**
   Every cached balance is the signed fold of its entries, except that fee_expense exceeds it by exactly
   twice the provider fees of the reversed withdrawals.
   */
  lemma CachedBalancesFollowEntries(limits: Limits, ops: seq<Op>, account: nat)
    requires Configured(limits) && account < |Reached(limits, ops).books.balances|
    ensures var s := Reached(limits, ops);
            s.books.balances[account]
            == Fold(s.books.entries, account) + if account == FEE_EXPENSE then 2 * SumBy(ReversedFee, s.txns) else 0
  {
    ReachedInv(limits, ops);
    CachedIsFoldPlusDrift(Reached(limits, ops).books.entries, account);
  }

  /** The running balance on an entry is the fold up to it, with the same drift on fee_expense. */
  lemma RunningBalancesFollowEntries(limits: Limits, ops: seq<Op>, k: nat)
    requires Configured(limits) && k < |Reached(limits, ops).books.entries|
    ensures var entries := Reached(limits, ops).books.entries;
            entries[k].running
            == Fold(entries[..k + 1], entries[k].leg.account) + Drift(entries[..k + 1], entries[k].leg.account)
  {
    ReachedInv(limits, ops);
    var s := Reached(limits, ops);
    assert RunningIsRight(s.books.entries, k);
    CachedIsFoldPlusDrift(s.books.entries[..k + 1], s.books.entries[k].leg.account);
  }

  /** Section 4.3 of the architecture document: float is exactly what is owed out of it. */
  lemma FloatIsWhatIsOwed(limits: Limits, ops: seq<Op>)
    requires Configured(limits)
    ensures HasSystemAccounts(Reached(limits, ops))
    ensures var b := Reached(limits, ops).books.balances; b[FLOAT] == WalletTotal(b) + b[FEE_INCOME] + b[SUSPENSE]
  {
    ReachedInv(limits, ops);
  }

  lemma EveryEntrySetBalances(limits: Limits, ops: seq<Op>, txn: nat)
    requires Configured(limits)
    ensures SumBy(DebitsLessCredits(txn), Reached(limits, ops).books.entries) == 0
  {
    ReachedInv(limits, ops);
  }

  /**
   The architecture document says fee_recovery always equals fee_expense. The cached balances part by twice
   the provider fees of reversed withdrawals, so they agree exactly when no reversed withdrawal paid one.
   */
  lemma FeePairAgreesIffNoFeeReversed(limits: Limits, ops: seq<Op>)
    requires Configured(limits)
    ensures var s := Reached(limits, ops);
            && HasSystemAccounts(s)
            && (s.books.balances[FEE_EXPENSE] == s.books.balances[FEE_RECOVERY]
                <==> forall t :: 0 <= t < |s.txns| && s.txns[t].Withdrawal? && s.txns[t].status == Reversed ==>
                    s.txns[t].providerFee == 0)
  {
    ReachedInv(limits, ops);
    var s := Reached(limits, ops);
    forall k | 0 <= k < |s.txns|
      ensures 0 <= ReversedFee(s.txns[k])
    {
      assert RowOk(s.txns, |s.books.balances|, k);
    }
    if t :| 0 <= t < |s.txns| && ReversedFee(s.txns[t]) != 0 {
      SumAtLeastMember(ReversedFee, s.txns, t);
    } else {
      SumZero(ReversedFee, s.txns);
    }
  }

  lemma SuspenseIsHeldFundings(limits: Limits, ops: seq<Op>)
    requires Configured(limits)
    ensures var s := Reached(limits, ops);
            HasSystemAccounts(s) && s.books.balances[SUSPENSE] == SumBy(HeldAmount, s.txns)
  {
    ReachedInv(limits, ops);
  }

  // ----- Exactly once -----

  /** One reference, at most one row; and that row's entries are its legs, once each. */
  lemma OneEntrySetPerReference(limits: Limits, ops: seq<Op>, i: nat, j: nat)
    requires Configured(limits) && i < |Reached(limits, ops).txns| && j < |Reached(limits, ops).txns|
    requires Reached(limits, ops).txns[i].reference == Reached(limits, ops).txns[j].reference
    ensures i == j
    ensures LegsPosted(Reached(limits, ops).books.entries, i) == LegsOf(Reached(limits, ops).txns, i)
  {
    ReachedInv(limits, ops);
    var s := Reached(limits, ops);
    assert LegsPosted(s.books.entries, i) == LegsDue(s.txns, i);
  }

  /** The client's or the bank's reference that a transaction would insert a row under. */
  function NewReference(op: Op): Option<string> {
    match op
    case InitiatesFunding(_, reference, _, _) => Some(reference)
    case Transfers(o, _) => Some(o.reference)
    case Withdraws(o, _) => Some(o.reference)
    case RecordsChargeback(_, reference, _, _) => Some(reference)
    case PaysRequest(_, _, reference, _, _, _) => Some(reference)
    case _ => None
  }

  /** Under a reference already taken, whoever took it for whatever, nothing is inserted or changed. */
  lemma TakenReferenceChangesNothing(s: State, op: Op)
    requires WellFormed(s) && NewReference(op).Some? && Taken(s, NewReference(op).value)
    ensures Next(s, op) == s
  {
  }

  /** The row under a transfer's own reference is found and read as a match, in any later state. */
  lemma PostedRowMatches(s: State, o: TransferOrder, t: nat)
    requires WellFormed(s) && t < |s.txns| && SameTransfer(s.txns[t], o)
    ensures Find(s.txns, o.reference) == Some(t) && CheckTransferReplay(s, o) == Match(t)
    ensures OrderOk(s, o) ==> forall c :: Transfer(s, o, c).0 == s
  {
  }

  lemma PostedTransferStays(s: State, o: TransferOrder, c: Context, later: seq<Op>)
    requires Inv(s) && OrderOk(s, o) && Transfer(s, o, c).1.Acted?
    ensures var posted := Transfer(s, o, c).0;
            Inv(posted)
            && var r := Run(posted, later);
               OrderOk(r, o) && |s.txns| < |r.txns| && r.txns[|s.txns|] == TransferRow(o, c)
  {
    hide UsersOk, DisputesOk, RefundsOk, ReversalsOk, AccountingOk, RequestsOk;
    var posted := Transfer(s, o, c).0;
    TransfersKeeps(s, o, c);
    RunKeeps(posted, later);
    assert posted.txns == s.txns + [TransferRow(o, c)] && posted.users == s.users;
    assert CanBecome(posted.txns[|s.txns|], Run(posted, later).txns[|s.txns|]);
  }

  /**
   A transfer that posted answers every later identical request with the same row, whatever has happened
   since, and trying to post it again changes nothing.
   */
  lemma PostedTransferReplays(s: State, o: TransferOrder, c: Context, later: seq<Op>, c': Context)
    requires Inv(s) && OrderOk(s, o) && Transfer(s, o, c).1.Acted?
    ensures var posted := Transfer(s, o, c).0;
            Inv(posted)
            && var r := Run(posted, later);
               WellFormed(r) && OrderOk(r, o) && CheckTransferReplay(r, o) == Match(|s.txns|)
                   && Transfer(r, o, c').0 == r
  {
    PostedTransferStays(s, o, c, later);
    var r := Run(Transfer(s, o, c).0, later);
    RunKeeps(Transfer(s, o, c).0, later);
    PostedRowMatches(r, o, |s.txns|);
  }

  /** What a request under a transfer's reference must agree with it on; its fee and its time do not count. */
  predicate SameTransfer(row: Transaction, o: TransferOrder) {
    && row.P2PTransfer? && row.reference == o.reference
    && row.sender == WalletOf(o.sender) && row.recipient == WalletOf(o.recipient)
    && row.amount == o.amount && row.note == o.note && row.visibility == o.visibility
  }

  /** A reference reused by someone else, or for another amount, recipient, note or visibility, is rejected. */
  lemma ReplayMatchesOnlyTheSameTransfer(s: State, o: TransferOrder)
    requires Inv(s) && o.sender != o.recipient
    ensures CheckTransferReplay(s, o).Match? <==> exists t :: 0 <= t < |s.txns| && SameTransfer(s.txns[t], o)
    ensures CheckTransferReplay(s, o) == Fresh <==> !Taken(s, o.reference)
  {
  }

  /** A withdrawal is reversed exactly when one row compensates it, and never by two. */
  lemma ReversedByExactlyOneRow(limits: Limits, ops: seq<Op>, w: nat)
    requires Configured(limits) && w < |Reached(limits, ops).txns| && Reached(limits, ops).txns[w].Withdrawal?
    ensures var s := Reached(limits, ops);
            SumBy(ReversalOf(w), s.txns) == if s.txns[w].status == Reversed then 1 else 0
  {
    ReachedInv(limits, ops);
  }

  // ----- Refunds -----

  /** An entry that takes a funding's money out of suspense: the debit of one of its refund attempts. */
  predicate PaysOutOfSuspense(s: State, e: Entry, funding: nat) {
    && e.leg.account == SUSPENSE && e.leg.direction.Debit?
    && e.txn < |s.txns| && s.txns[e.txn].FundingRefund? && s.txns[e.txn].reverses == funding
  }

  function PickPosted(txn: nat, p: Leg -> int): Entry -> int {
    (e: Entry) => if e.txn == txn then p(e.leg) else 0
  }

  lemma {:induction false} PickedFromPosted(entries: seq<Entry>, txn: nat, p: Leg -> int)
    ensures SumBy(PickPosted(txn, p), entries) == SumBy(p, LegsPosted(entries, txn))
  {
    if entries != [] {
      var n := |entries| - 1;
      PickedFromPosted(entries[..n], txn, p);
      if entries[n].txn == txn {
        SumAppend(p, LegsPosted(entries[..n], txn), entries[n].leg);
      } else {
        assert LegsPosted(entries, txn) == LegsPosted(entries[..n], txn);
      }
    }
  }

  function SuspenseDebit(leg: Leg): int {
    if leg.account == SUSPENSE && leg.direction.Debit? then 1 else 0
  }

  /**
   Whatever order successes and failures are reported in, a funding's money leaves suspense at most once:
   any two entries that pay it out are the same entry.
   */
  lemma SuspensePaidOutOnce(limits: Limits, ops: seq<Op>, funding: nat, i: nat, j: nat)
    requires Configured(limits) && i < |Reached(limits, ops).books.entries| && j < |Reached(limits, ops).books.entries|
    requires var s := Reached(limits, ops);
             PaysOutOfSuspense(s, s.books.entries[i], funding) && PaysOutOfSuspense(s, s.books.entries[j], funding)
    ensures i == j
  {
    ReachedInv(limits, ops);
    hide UsersOk, DisputesOk, ReversalsOk, RequestsOk;
    var s := Reached(limits, ops);
    var a, b := s.books.entries[i].txn, s.books.entries[j].txn;
    PaidOutIsCompleted(s, i);
    PaidOutIsCompleted(s, j);
    RefundedOnce(s, a, b);
    PickedFromPosted(s.books.entries, a, SuspenseDebit);
    assert LegsPosted(s.books.entries, a) == LegsDue(s.txns, a);
    LegsSum(s.txns, a, SuspenseDebit);
    if i < j {
      SumAtLeastPair(PickPosted(a, SuspenseDebit), s.books.entries, i, j);
    } else if j < i {
      SumAtLeastPair(PickPosted(a, SuspenseDebit), s.books.entries, j, i);
    }
  }

  /** Only a completed attempt has entries. */
  lemma PaidOutIsCompleted(s: State, i: nat)
    requires Inv(s) && i < |s.books.entries| && s.books.entries[i].txn < |s.txns|
             && s.txns[s.books.entries[i].txn].FundingRefund?
    requires SuspenseDebit(s.books.entries[i].leg) == 1
    ensures s.txns[s.books.entries[i].txn].status == Completed
  {
    var a := s.books.entries[i].txn;
    PickedFromPosted(s.books.entries, a, SuspenseDebit);
    SumAtLeastMember(PickPosted(a, SuspenseDebit), s.books.entries, i);
    assert LegsPosted(s.books.entries, a) == LegsDue(s.txns, a);
  }

  /**
   The attempts of a held funding number 1 to n, none completed and at most one in flight; of a refunded one,
   exactly one completed.
   */
  lemma RefundAttemptsOfHeldFundings(limits: Limits, ops: seq<Op>, f: nat)
    requires Configured(limits) && f < |Reached(limits, ops).txns| && Reached(limits, ops).txns[f].Funding?
    ensures var s := Reached(limits, ops);
            && (s.txns[f].status == Held ==>
                  && AttemptsIn(s.txns, f, Completed) == 0
                  && AttemptsIn(s.txns, f, Pending) <= 1 && 1 <= Attempts(s.txns, f))
            && (s.txns[f].status == Refunded ==>
                  AttemptsIn(s.txns, f, Completed) == 1 && AttemptsIn(s.txns, f, Pending) == 0)
            && (!WasHeld(s.txns[f].status) ==> Attempts(s.txns, f) == 0)
            && (forall a :: 0 <= a < |s.txns| && s.txns[a].FundingRefund? && s.txns[a].reverses == f ==>
                  s.txns[a].attempt == Attempts(s.txns[..a], f) + 1)
  {
    ReachedInv(limits, ops);
    var s := Reached(limits, ops);
    assert FundingOk(s.txns, f);
    forall a | 0 <= a < |s.txns| && s.txns[a].FundingRefund? && s.txns[a].reverses == f
      ensures s.txns[a].attempt == Attempts(s.txns[..a], f) + 1
    {
      assert AttemptOk(s.txns, a);
    }
  }

  /** The attempt still in flight when another settles was started after it. */
  lemma PendingAttemptIsNewest(limits: Limits, ops: seq<Op>, a: nat, b: nat)
    requires Configured(limits) && a < |Reached(limits, ops).txns| && b < |Reached(limits, ops).txns| && a != b
    requires var s := Reached(limits, ops);
             && s.txns[a].FundingRefund? && s.txns[b].FundingRefund? && s.txns[a].reverses == s.txns[b].reverses
             && s.txns[b].status == Pending
    ensures a < b
  {
    ReachedInv(limits, ops);
  }

  // ----- Wallets -----

  /** A wallet never falls below what its chargebacks left owing; owing nothing, it is never negative. */
  lemma WalletFloor(limits: Limits, ops: seq<Op>, u: nat)
    requires Configured(limits) && u < |Reached(limits, ops).users|
    ensures var s := Reached(limits, ops);
            && HasWallet(s, u) && 0 <= Owed(s.txns, WalletOf(u))
            && -Owed(s.txns, WalletOf(u)) <= s.books.balances[WalletOf(u)]
  {
    ReachedInv(limits, ops);
    var s := Reached(limits, ops);
    assert UserOk(s, u);
    OwedNonNegative(s, WalletOf(u));
  }

  /** What the first `n` rows are worth to a wallet. */
  function Worth(txns: seq<Transaction>, n: nat, wallet: nat): int
    requires n <= |txns|
  {
    if n == 0 then 0 else Worth(txns, n - 1, wallet) + WalletDelta(txns, n - 1, wallet)
  }

  /** The entries of the first `n` transactions, summed transaction by transaction. */
  function PostedTotal(entries: seq<Entry>, n: nat, account: nat): int {
    if n == 0 then 0 else PostedTotal(entries, n - 1, account) + SumBy(LegOn(account), LegsPosted(entries, n - 1))
  }

  lemma {:induction false} NothingPostedYet(n: nat, account: nat)
    ensures PostedTotal([], n, account) == 0
  {
    if n > 0 {
      NothingPostedYet(n - 1, account);
    }
  }

  lemma {:induction false} OneMorePosted(entries: seq<Entry>, e: Entry, n: nat, account: nat)
    ensures PostedTotal(entries + [e], n, account)
            == PostedTotal(entries, n, account) + if e.txn < n then LegOn(account)(e.leg) else 0
  {
    if n > 0 {
      OneMorePosted(entries, e, n - 1, account);
      assert (entries + [e])[..|entries|] == entries;
      if e.txn == n - 1 {
        SumAppend(LegOn(account), LegsPosted(entries, n - 1), e.leg);
      } else {
        assert LegsPosted(entries + [e], n - 1) == LegsPosted(entries, n - 1);
      }
    }
  }

  /** Summing entries in the order written or transaction by transaction is the same. */
  lemma {:induction false} RegroupedByTransaction(entries: seq<Entry>, n: nat, account: nat)
    requires forall k :: 0 <= k < |entries| ==> entries[k].txn < n
    ensures SumBy(CachedOn(account), entries) == PostedTotal(entries, n, account)
  {
    if entries == [] {
      NothingPostedYet(n, account);
    } else {
      var m := |entries| - 1;
      RegroupedByTransaction(entries[..m], n, account);
      OneMorePosted(entries[..m], entries[m], n, account);
      assert entries == entries[..m] + [entries[m]];
    }
  }

  lemma {:induction false} EntryIsPosted(entries: seq<Entry>, k: nat)
    requires k < |entries|
    ensures LegsPosted(entries, entries[k].txn) != []
  {
    if k < |entries| - 1 {
      EntryIsPosted(entries[..|entries| - 1], k);
    }
  }

  lemma {:induction false} PostedIsWorth(s: State, n: nat, wallet: nat)
    requires WellFormed(s) && Journal(s) && n <= |s.txns| && IsWallet(wallet)
    ensures PostedTotal(s.books.entries, n, wallet) == Worth(s.txns, n, wallet)
  {
    hide UniqueReferences, LegsOf, RowOk, WalletDelta;
    if n > 0 {
      PostedIsWorth(s, n - 1, wallet);
      assert RowOk(s.txns, |s.books.balances|, n - 1);
      LegsOnAccount(s.txns, |s.books.balances|, n - 1, wallet);
      assert LegsPosted(s.books.entries, n - 1) == LegsDue(s.txns, n - 1);
    }
  }

  /**
   A wallet's cached balance is what its rows say: fundings credited and transfers received, less transfers
   and withdrawals with their fees and chargebacks, plus what reversals and resolutions gave back.
   */
  lemma WalletIsWorthOfItsRows(limits: Limits, ops: seq<Op>, u: nat)
    requires Configured(limits) && u < |Reached(limits, ops).users|
    ensures var s := Reached(limits, ops);
            HasWallet(s, u) && s.books.balances[WalletOf(u)] == Worth(s.txns, |s.txns|, WalletOf(u))
  {
    hide UsersOk, DisputesOk, RefundsOk, ReversalsOk, RequestsOk;
    ReachedInv(limits, ops);
    var s := Reached(limits, ops);
    forall k | 0 <= k < |s.books.entries|
      ensures s.books.entries[k].txn < |s.txns|
    {
      EntryIsPosted(s.books.entries, k);
      assert LegsPosted(s.books.entries, s.books.entries[k].txn) == LegsDue(s.txns, s.books.entries[k].txn);
    }
    RegroupedByTransaction(s.books.entries, |s.txns|, WalletOf(u));
    PostedIsWorth(s, |s.txns|, WalletOf(u));
  }

  lemma NegativeWalletIsFrozen(limits: Limits, ops: seq<Op>, u: nat)
    requires Configured(limits) && u < |Reached(limits, ops).users|
    ensures var s := Reached(limits, ops); HasWallet(s, u) && (s.books.balances[WalletOf(u)] < 0 ==> s.users[u].frozen)
  {
    ReachedInv(limits, ops);
    assert UserOk(Reached(limits, ops), u);
  }

  /** A posting that takes nothing from a wallet, or no more than it holds. */
  lemma PostedStaysNonNegative(s: State, x: State, t: nat, u: nat)
    requires WellFormed(s) && u < |s.users| && x.books == s.books && 0 <= s.books.balances[WalletOf(u)]
    requires t < |x.txns| && RowOk(x.txns, |x.books.balances|, t)
    requires 0 <= s.books.balances[WalletOf(u)] + WalletDelta(x.txns, t, WalletOf(u))
    ensures 0 <= Posted(x, t).books.balances[WalletOf(u)]
  {
    PostedWallet(x, t, WalletOf(u));
  }

  lemma FundingStaysNonNegative(s: State, report: FundingReport, now: int, u: nat)
    requires WellFormed(s) && 0 <= report.fee && u < |s.users| && 0 <= s.books.balances[WalletOf(u)]
    ensures var r := ReportFunding(s, report, now).0; HasWallet(r, u) && 0 <= r.books.balances[WalletOf(u)]
  {
    var found := Find(s.txns, report.reference);
    if ReportFunding(s, report, now).1.Acted? {
      var t := found.value;
      assert RowOk(s.txns, |s.books.balances|, t);
      PostedStaysNonNegative(s, Claimed(s, t, Completed, report.fee), t, u);
      PostedStaysNonNegative(s, Claimed(s, t, Held, report.fee), t, u);
    }
  }

  lemma RefundStaysNonNegative(s: State, reference: string, reported: int, u: nat)
    requires WellFormed(s) && u < |s.users| && 0 <= s.books.balances[WalletOf(u)]
    ensures var r := SettleRefund(s, reference, reported).0; HasWallet(r, u) && 0 <= r.books.balances[WalletOf(u)]
  {
    if SettleRefund(s, reference, reported).1.Acted? {
      var a := Find(s.txns, reference).value;
      assert RowOk(s.txns, |s.books.balances|, a);
      var x := s.(txns := Settled(s.txns, a, s.txns[a].reverses));
      SettledRowsOk(s.txns, |s.books.balances|, a, s.txns[a].reverses);
      SettledRowsEvolve(s.txns, a, s.txns[a].reverses);
      assert CanBecome(s.txns[a], x.txns[a]) && RowOk(x.txns, |x.books.balances|, a);
      PostedStaysNonNegative(s, x, a, u);
    }
  }

  lemma DebitStaysNonNegative(s: State, row: Transaction, u: nat)
    requires WellFormed(s) && u < |s.users| && 0 <= s.books.balances[WalletOf(u)]
    requires row.P2PTransfer? || row.Withdrawal?
    requires RowOk(s.txns + [row], |s.books.balances|, |s.txns|)
    requires var spent := row.amount + row.platformFee + if row.Withdrawal? then row.providerFee else 0;
             spent <= s.books.balances[row.sender]
    ensures 0 <= Posted(Inserted(s, row), |s.txns|).books.balances[WalletOf(u)]
  {
    PostedStaysNonNegative(s, Inserted(s, row), |s.txns|, u);
  }

  lemma ReversalStaysNonNegative(s: State, reference: string, now: int, u: nat)
    requires WellFormed(s) && u < |s.users| && 0 <= s.books.balances[WalletOf(u)]
    ensures var r := ReverseWithdrawal(s, reference, now).0; HasWallet(r, u) && 0 <= r.books.balances[WalletOf(u)]
  {
    if ReverseWithdrawal(s, reference, now).1.Acted? {
      var t := Find(s.txns, reference).value;
      assert RowOk(s.txns, |s.books.balances|, t);
      PostedStaysNonNegative(s, Inserted(Restatus(s, t, Reversed), ReversalRow(s, t, now)), |s.txns|, u);
    }
  }

  lemma RulingStaysNonNegative(s: State, reference: string, ruling: Ruling, now: int, u: nat)
    requires WellFormed(s) && DisputesMatchRows(s.txns, s.disputes)
    requires u < |s.users| && 0 <= s.books.balances[WalletOf(u)]
    ensures var r := ResolveDispute(s, reference, ruling, now).0;
            HasWallet(r, u) && 0 <= r.books.balances[WalletOf(u)]
  {
    var found := FindDispute(s.disputes, reference);
    if found.Some? && ResolveDispute(s, reference, ruling, now).1.Acted? {
      var d := found.value;
      var c := s.disputes[d].chargeback;
      assert RowOk(s.txns, |s.books.balances|, c);
      var x := Inserted(s, ResolutionRow(s, c, now));
      PostedStaysNonNegative(s, x, |s.txns|, u);
      if ruling.Favors? {
        assert DisputeFavored(s, d, now).books == Posted(x, |s.txns|).books;
      }
    }
  }

  lemma TransferStaysNonNegative(s: State, o: TransferOrder, c: Context, u: nat)
    requires WellFormed(s) && OrderOk(s, o) && u < |s.users| && 0 <= s.books.balances[WalletOf(u)]
    ensures var r := Transfer(s, o, c).0; HasWallet(r, u) && 0 <= r.books.balances[WalletOf(u)]
  {
    if Transfer(s, o, c).1.Acted? {
      DebitStaysNonNegative(s, TransferRow(o, c), u);
    }
  }

  /** No transaction but a chargeback takes a wallet below zero, whatever the wallet already owes. */
  lemma OthersStayNonNegative(s: State, op: Op, u: nat)
    requires Inv(s) && u < |s.users| && 0 <= s.books.balances[WalletOf(u)] && !op.RecordsChargeback?
    ensures HasWallet(Next(s, op), u) && 0 <= Next(s, op).books.balances[WalletOf(u)]
  {
    hide UsersOk, RefundsOk, ReversalsOk, AccountingOk, RequestsOk;
    if Enabled(s, op) {
      match op
      case ReportsFunding(report, now) => FundingStaysNonNegative(s, report, now, u);
      case ReportsRefundPaid(reference, amount) => RefundStaysNonNegative(s, reference, amount, u);
      case Transfers(o, c) => TransferStaysNonNegative(s, o, c, u);
      case Withdraws(o, c) =>
        if Withdraw(s, o, c).1.Acted? {
          DebitStaysNonNegative(s, WithdrawalRow(o, c), u);
        }
      case ReversesWithdrawal(reference, now) => ReversalStaysNonNegative(s, reference, now, u);
      case ResolvesDispute(reference, ruling, now) => RulingStaysNonNegative(s, reference, ruling, now, u);
      case PaysRequest(r, payer, reference, fee, visibility, c) =>
        if PayRequest(s, r, payer, reference, fee, visibility, c).1.Acted? {
          TransferStaysNonNegative(s, OrderFor(s.requests[r], reference, fee, visibility), c, u);
        }
      case _ =>
    }
  }

  /** The step that takes a wallet below zero is a chargeback, and it freezes the owner. */
  lemma BelowZeroOnlyByChargebackThatFreezes(s: State, op: Op, u: nat)
    requires Inv(s) && u < |s.users| && 0 <= s.books.balances[WalletOf(u)]
    ensures HasWallet(Next(s, op), u) && u < |Next(s, op).users|
    ensures Next(s, op).books.balances[WalletOf(u)] < 0 ==> op.RecordsChargeback? && Next(s, op).users[u].frozen
  {
    hide DisputesOk, RefundsOk, ReversalsOk, AccountingOk, RequestsOk;
    NextKeeps(s, op);
    assert UserOk(Next(s, op), u);
    if !op.RecordsChargeback? {
      OthersStayNonNegative(s, op, u);
    }
  }

  /** Among the transactions that rule on no dispute, none lifts a freeze. */
  lemma OthersKeepFreezes(s: State, op: Op, u: nat)
    requires WellFormed(s) && u < |s.users| && s.users[u].frozen && !op.ResolvesDispute?
    ensures u < |Next(s, op).users| && Next(s, op).users[u].frozen
  {
    if op.RecordsChargeback? && Enabled(s, op) {
      assert RowOk(s.txns, |s.books.balances|, op.original);
    }
  }

  /**
   A freeze is lifted by one kind of step only, at a balance that is not negative with no dispute open on the
   wallet.
   */
  lemma UnfrozenOnlyWhenClear(s: State, op: Op, u: nat)
    requires WellFormed(s) && u < |s.users| && s.users[u].frozen
    requires u < |Next(s, op).users| && !Next(s, op).users[u].frozen
    ensures var r := Next(s, op);
            && op.ResolvesDispute? && op.ruling.Favors? && HasWallet(r, u)
            && 0 <= r.books.balances[WalletOf(u)] && !OpenOnWallet(r.txns, r.disputes, WalletOf(u))
  {
    if !op.ResolvesDispute? {
      OthersKeepFreezes(s, op, u);
    }
  }

  lemma CappedWallet(limits: Limits, ops: seq<Op>, u: nat)
    requires Configured(limits) && u < |Reached(limits, ops).users|
    ensures var s := Reached(limits, ops);
            && HasWallet(s, u)
            && (LimitOf(s, u).balanceCap.Some? ==>
                  s.books.balances[WalletOf(u)] <= LimitOf(s, u).balanceCap.value + Exempt(s.txns, WalletOf(u)))
  {
    ReachedInv(limits, ops);
    assert UserOk(Reached(limits, ops), u);
  }

  /**
   On every day a user's debits stay within the limit, but for those stamped that day and checked on a later
   one: without any, within the limit.
   */
  lemma DailyDebitsWithinLimitAndLate(limits: Limits, ops: seq<Op>, u: nat, day: int)
    requires Configured(limits) && u < |Reached(limits, ops).users|
    ensures var s := Reached(limits, ops);
            Debited(s.txns, WalletOf(u), day) <= LimitOf(s, u).dailyDebit + Late(s.txns, WalletOf(u), day)
  {
    ReachedInv(limits, ops);
    assert UserOk(Reached(limits, ops), u);
    InTimeOrLate(Reached(limits, ops).txns, WalletOf(u), day);
  }

  /** A transfer not stamped before the day of its check leaves the stamped day within the limit. */
  lemma TransferInTimeFits(s: State, o: TransferOrder, c: Context)
    requires Inv(s) && OrderOk(s, o) && Transfer(s, o, c).1.Acted? && DayOf(c.now) <= DayOf(c.stamp)
    ensures Debited(Transfer(s, o, c).0.txns, WalletOf(o.sender), DayOf(c.stamp)) <= LimitOf(s, o.sender).dailyDebit
  {
    hide UsersOk, DisputesOk, RefundsOk, ReversalsOk, AccountingOk, RequestsOk;
    var day := DayOf(c.stamp);
    DailyCheckFits(s, LimitOf(s, o.sender), WalletOf(o.sender), o.amount, c.now, day);
    SumAppend(DebitedOn(WalletOf(o.sender), day), s.txns, TransferRow(o, c));
    assert Transfer(s, o, c).0.txns == s.txns + [TransferRow(o, c)];
  }

  lemma WithdrawalInTimeFits(s: State, o: WithdrawalOrder, c: Context)
    requires Inv(s) && WithdrawalOrderOk(s, o) && Withdraw(s, o, c).1.Acted? && DayOf(c.now) <= DayOf(c.stamp)
    ensures Debited(Withdraw(s, o, c).0.txns, WalletOf(o.user), DayOf(c.stamp)) <= LimitOf(s, o.user).dailyDebit
  {
    hide UsersOk, DisputesOk, RefundsOk, ReversalsOk, AccountingOk, RequestsOk;
    var day := DayOf(c.stamp);
    DailyCheckFits(s, LimitOf(s, o.user), WalletOf(o.user), o.amount, c.now, day);
    SumAppend(DebitedOn(WalletOf(o.user), day), s.txns, WithdrawalRow(o, c));
    assert Withdraw(s, o, c).0.txns == s.txns + [WithdrawalRow(o, c)];
  }

  // ----- Fundings and disputes -----

  /** A credited funding credited its wallet exactly the requested amount; a held one credited no wallet. */
  lemma FundingCreditsExactlyOrIsHeld(limits: Limits, ops: seq<Op>, f: nat, wallet: nat)
    requires Configured(limits) && f < |Reached(limits, ops).txns| && Reached(limits, ops).txns[f].Funding?
             && IsWallet(wallet)
    ensures var s := Reached(limits, ops);
            SumBy(PickPosted(f, LegOn(wallet)), s.books.entries)
            == if IsCredited(s.txns[f].status) && wallet == s.txns[f].recipient then s.txns[f].amount else 0
  {
    ReachedInv(limits, ops);
    hide UsersOk, DisputesOk, ReversalsOk, RequestsOk;
    var s := Reached(limits, ops);
    PickedFromPosted(s.books.entries, f, LegOn(wallet));
    assert LegsPosted(s.books.entries, f) == LegsDue(s.txns, f);
    assert RowOk(s.txns, |s.books.balances|, f);
    LegsSum(s.txns, f, LegOn(wallet));
  }

  /**
   Chargebacks against a funding never sum above its amount, even though the caller's status check may be
   stale; and its status is the aggregate of its disputes.
   */
  lemma ChargebacksWithinFunding(limits: Limits, ops: seq<Op>, o: nat)
    requires Configured(limits) && o < |Reached(limits, ops).txns| && Reached(limits, ops).txns[o].Funding?
    ensures var s := Reached(limits, ops);
            && 0 <= ChargedBack(s.txns, o) <= s.txns[o].amount
            && (0 < ChargedBack(s.txns, o) ==> s.txns[o].status == AggregateStatus(s.txns, s.disputes, o))
  {
    ReachedInv(limits, ops);
    var s := Reached(limits, ops);
    assert OriginalOk(s.txns, s.disputes, o);
  }

  /** Overlapping rulings and chargebacks on a charged-back funding start from a status that is right. */
  lemma OverlapsStartRight(limits: Limits, ops: seq<Op>, o: nat)
    requires Configured(limits) && o < |Reached(limits, ops).txns| && Reached(limits, ops).txns[o].Funding?
    requires 0 < ChargedBack(Reached(limits, ops).txns, o)
    ensures var s := Reached(limits, ops);
            var start := RulingOverlap.Start(RulingOverlap.Siblings(s.txns, s.disputes, o));
            RulingOverlap.Inv(start) && start.status == s.txns[o].status
  {
    ReachedInv(limits, ops);
    var s := Reached(limits, ops);
    assert OriginalOk(s.txns, s.disputes, o);
    RulingOverlap.AggregateOfSiblings(s.txns, s.disputes, o);
    RulingOverlap.StartInv(RulingOverlap.Siblings(s.txns, s.disputes, o));
  }

  /** A status check that once saw a funding credited is never stale in what matters: it stays credited. */
  lemma CreditedIsForGood(s: State, ops: seq<Op>, f: nat)
    requires Inv(s) && f < |s.txns| && s.txns[f].Funding? && IsCredited(s.txns[f].status)
    ensures var r := Run(s, ops); f < |r.txns| && r.txns[f].Funding? && IsCredited(r.txns[f].status)
  {
    RunKeeps(s, ops);
    assert CanBecome(s.txns[f], Run(s, ops).txns[f]);
  }

  /**
   Marking a funding failed is an unguarded update. It keeps the invariant and unwrites nothing exactly when
   the money has not already been credited or held.
   */
  lemma MarkingFailedIsSafeIffUnposted(s: State, f: nat)
    requires Inv(s) && f < |s.txns| && s.txns[f].Funding?
    ensures Keeps(s, MarkFundingFailed(s, s.txns[f].reference))
            <==> !IsCredited(s.txns[f].status) && !WasHeld(s.txns[f].status)
  {
    hide UsersOk, DisputesOk, RefundsOk, ReversalsOk, BooksOk, RequestsOk;
    var found := Find(s.txns, s.txns[f].reference).value;
    assert s.txns[found].reference == s.txns[f].reference;
    var r := Restatus(s, f, Failed);
    assert LegsPosted(s.books.entries, f) == LegsDue(s.txns, f);
    if IsCredited(s.txns[f].status) || WasHeld(s.txns[f].status) {
      assert LegsPosted(r.books.entries, f) != LegsDue(r.txns, f);
    } else if s.txns[f].status == Pending {
      QuietRestatusKeeps(s, f, Failed);
    } else {
      assert r.txns == s.txns;
      UnchangedKeeps(s);
    }
  }

  /**
   An open dispute ruled in Cliqpay's favour at its own amount is resolved exactly when the reference its
   compensating row derives is free; otherwise the ruling is refused and the dispute stays open.
   */
  lemma FavourIsGrantedIffReferenceFree(s: State, d: nat, now: int)
    requires Inv(s) && d < |s.disputes| && s.disputes[d].status == Open
    ensures var (r, outcome) := ResolveDispute(s, s.disputes[d].reference, Favors(s.disputes[d].amount), now);
            var free := !Taken(s, s.disputes[d].reference + "-resolved");
            && Keeps(s, r) && d < |r.disputes| && outcome.Acted? == free
            && r.disputes[d].status == if free then Resolved else Open
  {
    hide UsersOk, RefundsOk, ReversalsOk, AccountingOk, RequestsOk;
    ResolvesDisputeKeeps(s, s.disputes[d].reference, Favors(s.disputes[d].amount), now);
    var found := FindDispute(s.disputes, s.disputes[d].reference).value;
    assert s.txns[s.disputes[found].chargeback].reference == s.txns[s.disputes[d].chargeback].reference;
    assert found == d;
  }

  // ----- Requests -----

  /**
   A paid request names a completed transfer of its amount from its payer to its requester, and no other
   request names it.
   */
  lemma PaidRequestNamesItsTransfer(limits: Limits, ops: seq<Op>, q: nat, r: nat)
    requires Configured(limits) && q < |Reached(limits, ops).requests| && r < |Reached(limits, ops).requests|
    requires Reached(limits, ops).requests[q].status == Paid
    ensures var s := Reached(limits, ops);
            && s.requests[q].transactionId.Some? && PaidBy(s.txns, s.requests[q], s.requests[q].transactionId.value)
            && (r != q && s.requests[r].status == Paid ==> s.requests[r].transactionId != s.requests[q].transactionId)
  {
    ReachedInv(limits, ops);
  }

  /** Once a request is paid, no later payment of it posts anything, under any reference. */
  lemma RequestIsPaidOnce(s: State, ops: seq<Op>, q: nat, payer: nat, reference: string, fee: int,
      visibility: Visibility, c: Context)
    requires Inv(s) && q < |s.requests| && s.requests[q].status == Paid && 0 <= fee
    ensures var r := Run(s, ops); WellFormed(r) && PayRequest(r, q, payer, reference, fee, visibility, c).0 == r
  {
    RunKeeps(s, ops);
    SecondPayPostsNothing(Run(s, ops), q, payer, reference, fee, visibility, c);
  }

  /** Cancel and decline read a request and save it later without a lock: what was read overwrites the row. */
  function SavedClose(seen: State, now: State, r: nat, actor: nat, closing: RequestStatus, at: int): State
    requires closing in {Cancelled, Declined} && r < |seen.requests| && r < |now.requests|
  {
    if CloseRequest(seen, r, actor, closing, at).1 == Nothing
    then now.(requests := now.requests[r := seen.requests[r].(status := closing)])
    else now
  }

  /**
   Saved after anything else has committed, a close decided on the earlier read keeps the invariant and
   unwrites nothing exactly when the request is still outstanding, or was closed the same way meanwhile.
   A payment or the other party's close is overwritten.
   */
  lemma SavedCloseIsSafeIffUndecided(s: State, ops: seq<Op>, r: nat, actor: nat, closing: RequestStatus, at: int)
    requires Inv(s) && closing in {Cancelled, Declined} && r < |s.requests|
    requires CloseRequest(s, r, actor, closing, at).1 == Nothing
    ensures r < |Run(s, ops).requests|
    ensures var t := Run(s, ops);
            Keeps(t, SavedClose(s, t, r, actor, closing, at)) <==> t.requests[r].status in {Outstanding, closing}
  {
    hide UsersOk, DisputesOk, RefundsOk, ReversalsOk, AccountingOk;
    RunKeeps(s, ops);
    var t := Run(s, ops);
    var x := SavedClose(s, t, r, actor, closing, at);
    assert RequestCanBecome(s.requests[r], t.requests[r]);
    assert RequestCanBecome(t.requests[r], x.requests[r]) <==> t.requests[r].status in {Outstanding, closing};
    if t.requests[r].status in {Outstanding, closing} {
      RequestsChangeKeeps(t, x);
    }
  }

  /**
   An outstanding request is decided by its own parties only: paid or declined by its payer, cancelled by
   its requester, and never after it expired.
   */
  lemma RequestDecidedByItsParties(s: State, op: Op, q: nat)
    requires WellFormed(s) && q < |s.requests| && q < |Next(s, op).requests| && s.requests[q].status == Outstanding
    ensures var request, now := s.requests[q], Next(s, op).requests[q];
            match now.status
            case Outstanding => now == request
            case Paid =>
              op.PaysRequest? && op.request == q && op.payer == request.payer && op.context.now < request.expiresAt
            case _ =>
              && op.ClosesRequest? && op.request == q && op.closing == now.status && op.now < request.expiresAt
              && op.actor == if now.status == Cancelled then request.requester else request.payer
  {
  }

  /** Once decided, a request keeps its decision over any run. */
  lemma DecidedRequestStays(s: State, ops: seq<Op>, q: nat)
    requires Inv(s) && q < |s.requests| && s.requests[q].status != Outstanding
    ensures q < |Run(s, ops).requests| && Run(s, ops).requests[q] == s.requests[q]
  {
    hide UsersOk, DisputesOk, RefundsOk, ReversalsOk, AccountingOk;
    RunKeeps(s, ops);
    assert RequestCanBecome(s.requests[q], Run(s, ops).requests[q]);
  }
}
