/**
 The books over every transaction: the entries of each row are exactly the legs it calls for, the
 cached balances follow the entries, every entry set balances, and float equals what is owed out of it.
 */
module Accounting {
  import opened Tables
  import opened Sums
  import opened Postings
  import opened LedgerSpec
  import opened Evolution

  function HeldAmount(t: Transaction): int {
    if t.Funding? && t.status == Held then t.amount else 0
  }

  function ReversedFee(t: Transaction): int {
    if t.Withdrawal? && t.status == Reversed then t.providerFee else 0
  }

  function LegsDue(txns: seq<Transaction>, t: nat): seq<Leg> {
    if t < |txns| then LegsOf(txns, t) else []
  }

  /** Every row's entries are exactly its legs, once each, in order; nothing else was ever posted. */
  ghost predicate Journal(s: State) {
    forall t: nat :: LegsPosted(s.books.entries, t) == LegsDue(s.txns, t)
  }

  ghost predicate BooksOk(s: State) {
    && FIRST_WALLET <= |s.books.balances|
    && CacheFollowsEntries(s.books)
    && EntrySetsBalance(s.books.entries)
    && Imbalance(s.books.balances) == 0
    && s.books.balances[SUSPENSE] == SumBy(HeldAmount, s.txns)
    && s.books.balances[FEE_EXPENSE] - s.books.balances[FEE_RECOVERY] == 2 * SumBy(ReversedFee, s.txns)
    && SumBy(FeeExpenseCredit, s.books.entries) == SumBy(ReversedFee, s.txns)
  }

  ghost predicate AccountingOk(s: State) { Journal(s) && BooksOk(s) }

  // ----- What posting a row does to single balances -----

  function LegOn(account: nat): Leg -> int {
    (leg: Leg) => if leg.account == account then CachedDelta(leg) else 0
  }

  function LegFeeExpenseCredit(leg: Leg): int {
    if leg.account == FEE_EXPENSE && leg.direction.Credit? then leg.amount else 0
  }

  lemma {:induction false} PostOn(b: Books, txn: nat, legs: seq<Leg>, account: nat)
    requires AccountsExist(b.balances, legs) && account < |b.balances|
    ensures Post(b, txn, legs).balances[account] == b.balances[account] + SumBy(LegOn(account), legs)
  {
    if legs != [] {
      PostOn(b, txn, legs[..|legs| - 1], account);
    }
  }

  lemma {:induction false} PostFeeExpenseCredits(b: Books, txn: nat, legs: seq<Leg>)
    requires AccountsExist(b.balances, legs)
    ensures SumBy(FeeExpenseCredit, Post(b, txn, legs).entries)
            == SumBy(FeeExpenseCredit, b.entries) + SumBy(LegFeeExpenseCredit, legs)
  {
    if legs != [] {
      var n := |legs| - 1;
      PostFeeExpenseCredits(b, txn, legs[..n]);
      var before := Post(b, txn, legs[..n]);
      SumAppend(FeeExpenseCredit, before.entries, PostLeg(before, txn, legs[n]).entries[|before.entries|]);
    }
  }

  /** What a posted row is worth to a wallet. */
  function WalletDelta(txns: seq<Transaction>, t: nat, wallet: nat): int
    requires t < |txns|
  {
    match txns[t]
    case Funding(_, status, amount, recipient, _, _) => if IsCredited(status) && recipient == wallet then amount else 0
    case FundingRefund(_, _, _, _, _, _) => 0
    case P2PTransfer(_, _, amount, sender, recipient, fee, _, _, _, _) =>
      (if sender == wallet then -amount - fee else 0) + (if recipient == wallet then amount else 0)
    case Withdrawal(_, _, amount, sender, platformFee, providerFee, _, _, _) =>
      if sender == wallet then -amount - platformFee - providerFee else 0
    case WithdrawalReversal(_, _, _, reverses, recipient, _) =>
      if reverses < |txns| && txns[reverses].Withdrawal? && txns[reverses].sender == wallet
      then txns[reverses].amount + txns[reverses].platformFee + txns[reverses].providerFee else 0
    case Chargeback(_, _, amount, _, sender, _) => if sender == wallet then -amount else 0
    case ChargebackReversal(_, _, amount, _, recipient, _) => if recipient == wallet then amount else 0
  }

  function SuspenseDelta(row: Transaction): int {
    if row.Funding? && WasHeld(row.status) then row.amount
    else if row.FundingRefund? && row.status == Completed then -row.amount
    else 0
  }

  function ReversedFeeOf(txns: seq<Transaction>, t: nat): int
    requires t < |txns|
  {
    if txns[t].WithdrawalReversal? && txns[t].reverses < |txns| && txns[txns[t].reverses].Withdrawal?
    then txns[txns[t].reverses].providerFee else 0
  }

  lemma LegsOnAccount(txns: seq<Transaction>, accounts: nat, t: nat, a: nat)
    requires t < |txns| && RowOk(txns, accounts, t)
    ensures IsWallet(a) ==> SumBy(LegOn(a), LegsOf(txns, t)) == WalletDelta(txns, t, a)
    ensures a == SUSPENSE ==> SumBy(LegOn(a), LegsOf(txns, t)) == SuspenseDelta(txns[t])
  {
    LegsSum(txns, t, LegOn(a));
  }

  lemma LegsFeeExpenseCredits(txns: seq<Transaction>, accounts: nat, t: nat)
    requires t < |txns| && RowOk(txns, accounts, t)
    ensures SumBy(LegFeeExpenseCredit, LegsOf(txns, t)) == ReversedFeeOf(txns, t)
  {
    LegsSum(txns, t, LegFeeExpenseCredit);
  }

  /** A sum over the legs of a row, written out. */
  lemma LegsSum(txns: seq<Transaction>, t: nat, f: Leg -> int)
    requires t < |txns|
    ensures var l := LegsOf(txns, t);
            SumBy(f, l) == (if |l| > 0 then f(l[0]) else 0) + (if |l| > 1 then f(l[1]) else 0)
                + (if |l| > 2 then f(l[2]) else 0)
                           + (if |l| > 3 then f(l[3]) else 0) + (if |l| > 4 then f(l[4]) else 0)
  {
    var l := LegsOf(txns, t);
    if |l| == 2 {
      assert l == [l[0], l[1]];
      SumOf2(f, l[0], l[1]);
    } else if |l| == 3 {
      assert l == [l[0], l[1], l[2]];
      SumOf3(f, l[0], l[1], l[2]);
    } else if |l| == 4 {
      assert l == [l[0], l[1], l[2], l[3]];
      SumOf4(f, l[0], l[1], l[2], l[3]);
    } else if |l| == 5 {
      assert l == [l[0], l[1], l[2], l[3], l[4]];
      SumOf5(f, l[0], l[1], l[2], l[3], l[4]);
    }
  }

  lemma DebitsEqualCredits(txns: seq<Transaction>, accounts: nat, t: nat)
    requires t < |txns| && RowOk(txns, accounts, t)
    ensures SumBy(LegDebitsLessCredits, LegsOf(txns, t)) == 0
  {
    LegsSum(txns, t, LegDebitsLessCredits);
  }

  lemma FloatSideBalances(txns: seq<Transaction>, accounts: nat, t: nat)
    requires t < |txns| && RowOk(txns, accounts, t)
    ensures SumBy(ImbalanceDelta, LegsOf(txns, t)) == 0
  {
    LegsSum(txns, t, ImbalanceDelta);
  }

  /** Every leg set the table prescribes balances on both counts. */
  lemma RowLegsBalance(txns: seq<Transaction>, accounts: nat, t: nat)
    requires t < |txns| && RowOk(txns, accounts, t)
    ensures Balanced(LegsOf(txns, t))
    ensures SumBy(FeeGapDelta, LegsOf(txns, t)) == 2 * ReversedFeeOf(txns, t)
  {
    DebitsEqualCredits(txns, accounts, t);
    FloatSideBalances(txns, accounts, t);
    LegsSum(txns, t, FeeGapDelta);
  }

  // ----- Rows that change without posting, and rows that post -----

  /** The status change does not change which legs the row calls for. */
  predicate SamePosting(before: Transaction, after: Transaction) {
    && (before.Funding? ==>
          IsCredited(before.status) == IsCredited(after.status) && WasHeld(before.status) == WasHeld(after.status))
    && (before.FundingRefund? ==> (before.status == Completed) == (after.status == Completed))
  }

  lemma LegsStay(before: seq<Transaction>, after: seq<Transaction>, accounts: nat, t: nat)
    requires t < |before| && RowsEvolve(before, after) && RowOk(before, accounts, t) && SamePosting(before[t], after[t])
    ensures LegsOf(after, t) == LegsOf(before, t)
  {
  }

  /** Rows evolve and rows are inserted, but no row other than `t` calls for new legs. */
  ghost predicate PostsOnly(s: State, r: State, t: nat) {
    && RowsEvolve(s.txns, r.txns)
    && (forall k :: 0 <= k < |s.txns| && k != t ==> SamePosting(s.txns[k], r.txns[k]))
    && (forall k :: |s.txns| <= k < |r.txns| && k != t ==> LegsOf(r.txns, k) == [])
  }

  lemma JournalElsewhere(s: State, r: State, t: nat, k: nat)
    requires WellFormed(s) && Journal(s) && PostsOnly(s, r, t) && k != t
    ensures LegsPosted(s.books.entries, k) == LegsDue(r.txns, k)
  {
    assert LegsPosted(s.books.entries, k) == LegsDue(s.txns, k);
    if k < |s.txns| {
      assert RowOk(s.txns, |s.books.balances|, k);
      LegsStay(s.txns, r.txns, |s.books.balances|, k);
    }
  }

  lemma NothingPosted(s: State, r: State)
    requires WellFormed(s) && AccountingOk(s) && r.books == s.books && PostsOnly(s, r, |r.txns|)
    requires SumBy(HeldAmount, r.txns) == SumBy(HeldAmount, s.txns)
    requires SumBy(ReversedFee, r.txns) == SumBy(ReversedFee, s.txns)
    ensures AccountingOk(r)
  {
    forall k: nat | k < |r.txns|
      ensures LegsPosted(r.books.entries, k) == LegsDue(r.txns, k)
    {
      JournalElsewhere(s, r, |r.txns|, k);
    }
    forall k: nat | |r.txns| <= k
      ensures LegsPosted(r.books.entries, k) == []
    {
      assert LegsPosted(s.books.entries, k) == LegsDue(s.txns, k);
    }
  }

  /** From `s`, rows changed to those of `x` and the legs of row `t` were posted. */
  lemma OnePosted(s: State, x: State, t: nat)
    requires WellFormed(s) && AccountingOk(s) && x.books == s.books && PostsOnly(s, x, t)
    requires t < |x.txns| && RowOk(x.txns, |x.books.balances|, t) && LegsDue(s.txns, t) == []
    requires SumBy(HeldAmount, x.txns) == SumBy(HeldAmount, s.txns) + SuspenseDelta(x.txns[t])
    requires SumBy(ReversedFee, x.txns) == SumBy(ReversedFee, s.txns) + ReversedFeeOf(x.txns, t)
    ensures AccountingOk(Posted(x, t))
  {
    var legs := LegsOf(x.txns, t);
    LegsExist(x.txns, x.books.balances, t);
    RowLegsBalance(x.txns, |x.books.balances|, t);
    PostKeepsCache(x.books, t, legs);
    PostEntrySets(x.books, t, legs);
    PostImbalance(x.books, t, legs);
    PostFeeGap(x.books, t, legs);
    PostFeeExpenseCredits(x.books, t, legs);
    LegsFeeExpenseCredits(x.txns, |x.books.balances|, t);
    PostOn(x.books, t, legs, SUSPENSE);
    LegsOnAccount(x.txns, |x.books.balances|, t, SUSPENSE);
    forall k: nat
      ensures LegsPosted(Posted(x, t).books.entries, k) == LegsDue(x.txns, k)
    {
      PostLegsPosted(x.books, t, legs, k);
      if k != t {
        JournalElsewhere(s, x, t, k);
      } else {
        assert LegsPosted(s.books.entries, t) == LegsDue(s.txns, t);
      }
    }
  }

  // ----- The effects -----

  /** A new account without entries has nothing to follow. */
  lemma NewAccountKeepsCache(b: Books)
    requires CacheFollowsEntries(b)
    ensures CacheFollowsEntries(b.(balances := b.balances + [0]))
  {
    SumZero(CachedOn(|b.balances|), b.entries);
    forall k | 0 <= k < |b.entries|
      ensures RunningIsRight(b.(balances := b.balances + [0]).entries, k)
    {
      assert RunningIsRight(b.entries, k);
    }
  }

  lemma RegisterAccounting(s: State)
    requires WellFormed(s) && AccountingOk(s)
    ensures AccountingOk(Register(s))
  {
    hide CacheFollowsEntries, EntrySetsBalance;
    var b, r := s.books.balances, Register(s).books.balances;
    assert r[FIRST_WALLET..] == b[FIRST_WALLET..] + [0];
    SumAppend(Id, b[FIRST_WALLET..], 0);
    NewAccountKeepsCache(s.books);
    assert Register(s).books.entries == s.books.entries;
    forall t: nat
      ensures LegsPosted(Register(s).books.entries, t) == LegsDue(s.txns, t)
    {
      assert LegsPosted(s.books.entries, t) == LegsDue(s.txns, t);
    }
  }

  /** A row that posts nothing on insertion: a pending funding or a refund attempt. */
  lemma InsertedAccounting(s: State, row: Transaction)
    requires WellFormed(s) && AccountingOk(s) && row.status == Pending && (row.Funding? || row.FundingRefund?)
    ensures AccountingOk(Inserted(s, row))
  {
  }

  /** A status change that calls for no new legs. */
  lemma RestatusAccounting(s: State, t: nat, status: Status)
    requires WellFormed(s) && AccountingOk(s) && t < |s.txns|
    requires CanBecome(s.txns[t], WithStatus(s.txns[t], status))
             && SamePosting(s.txns[t], WithStatus(s.txns[t], status))
    requires HeldAmount(WithStatus(s.txns[t], status)) == HeldAmount(s.txns[t])
    requires s.txns[t].Withdrawal? ==> status != Reversed
    ensures AccountingOk(Restatus(s, t, status))
  {
    var row := WithStatus(s.txns[t], status);
    SumUpdate(HeldAmount, s.txns, t, row);
    SumUpdate(ReversedFee, s.txns, t, row);
    assert ReversedFee(row) == ReversedFee(s.txns[t]);
    NothingPosted(s, Restatus(s, t, status));
  }

  lemma ClaimedAccounting(s: State, t: nat, status: Status, fee: int)
    requires WellFormed(s) && AccountingOk(s) && t < |s.txns| && s.txns[t].Funding? && s.txns[t].status == Pending
             && 0 <= fee
    requires status in {Completed, Held} && RowOk(Claimed(s, t, status, fee).txns, |s.books.balances|, t)
    ensures AccountingOk(Posted(Claimed(s, t, status, fee), t))
  {
    var x := Claimed(s, t, status, fee);
    SumUpdate(HeldAmount, s.txns, t, x.txns[t]);
    SumUpdate(ReversedFee, s.txns, t, x.txns[t]);
    OnePosted(s, x, t);
  }

  lemma FundingHeldAccounting(s: State, t: nat, fee: int, now: int)
    requires WellFormed(s) && AccountingOk(s) && t < |s.txns| && s.txns[t].Funding? && s.txns[t].status == Pending
             && 0 <= fee
    ensures AccountingOk(FundingHeld(s, t, fee, now))
  {
    var claimed := Claimed(s, t, Held, fee);
    ClaimedEvolves(s, t, Held, fee);
    ClaimedAccounting(s, t, Held, fee);
    PostedKeeps(claimed, t);
    InsertedAccounting(Posted(claimed, t), RefundAttempt(s, t, 1, now));
  }

  /** Settling attempt `a` takes its amount out of the held total. */
  lemma SettledSums(txns: seq<Transaction>, a: nat, f: nat)
    requires a < |txns| && txns[a].FundingRefund? && f < |txns| && txns[f].Funding? && txns[f].status == Held
    ensures SumBy(HeldAmount, Settled(txns, a, f)) == SumBy(HeldAmount, txns) - txns[f].amount
    ensures SumBy(ReversedFee, Settled(txns, a, f)) == SumBy(ReversedFee, txns)
  {
    SettledSum(txns, a, f, HeldAmount);
    SettledSum(txns, a, f, ReversedFee);
  }

  lemma SettledSum(txns: seq<Transaction>, a: nat, f: nat, g: Transaction -> int)
    requires a < |txns| && txns[a].FundingRefund? && f < |txns| && txns[f].Funding? && txns[f].status == Held
    requires forall t: Transaction :: t.FundingRefund? ==> g(t) == 0
    ensures SumBy(g, Settled(txns, a, f)) == SumBy(g, txns) - g(txns[f]) + g(WithStatus(txns[f], Refunded))
  {
    var claimed := txns[a := WithStatus(txns[a], Completed)];
    var refunded := claimed[f := WithStatus(claimed[f], Refunded)];
    SumUpdate(g, txns, a, claimed[a]);
    SumUpdate(g, claimed, f, refunded[f]);
    SumPointwise(g, refunded, Supersede(refunded, f));
  }

  /** Only the settled attempt calls for new legs. */
  lemma SettledPosts(txns: seq<Transaction>, a: nat, f: nat)
    requires a < |txns| && txns[a].FundingRefund? && f < |txns| && txns[f].Funding? && txns[f].status == Held
    ensures forall t :: 0 <= t < |txns| && t != a ==> SamePosting(txns[t], Settled(txns, a, f)[t])
    ensures Settled(txns, a, f)[a] == WithStatus(txns[a], Completed)
  {
  }

  lemma RefundSettledAccounting(s: State, a: nat)
    requires WellFormed(s) && AccountingOk(s) && a < |s.txns| && s.txns[a].FundingRefund?
             && s.txns[a].status in {Pending, Failed}
    requires RowOk(s.txns, |s.books.balances|, a) && s.txns[s.txns[a].reverses].status == Held
    ensures AccountingOk(RefundSettled(s, a))
  {
    hide BooksOk, Journal, Supersede, Settled;
    var x := s.(txns := Settled(s.txns, a, s.txns[a].reverses));
    SettledSums(s.txns, a, s.txns[a].reverses);
    SettledRowsEvolve(s.txns, a, s.txns[a].reverses);
    SettledPosts(s.txns, a, s.txns[a].reverses);
    OnePosted(s, x, a);
  }

  /** A row that posts on insertion. */
  lemma InsertedPostedAccounting(s: State, row: Transaction)
    requires WellFormed(s) && AccountingOk(s) && RowOk(s.txns + [row], |s.books.balances|, |s.txns|)
    requires row.P2PTransfer? || (row.Withdrawal? && row.status == Pending) || row.Chargeback?
             || row.ChargebackReversal?
    ensures AccountingOk(Posted(Inserted(s, row), |s.txns|))
  {
    SumAppend(HeldAmount, s.txns, row);
    SumAppend(ReversedFee, s.txns, row);
    OnePosted(s, Inserted(s, row), |s.txns|);
  }

  lemma WithdrawalReversedAccounting(s: State, t: nat, now: int)
    requires WellFormed(s) && AccountingOk(s) && t < |s.txns| && s.txns[t].Withdrawal? && s.txns[t].status == Pending
    ensures AccountingOk(WithdrawalReversed(s, t, now))
  {
    assert RowOk(s.txns, |s.books.balances|, t);
    var x := Inserted(Restatus(s, t, Reversed), ReversalRow(s, t, now));
    SumUpdateAppend(HeldAmount, s.txns, t, WithStatus(s.txns[t], Reversed), ReversalRow(s, t, now));
    SumUpdateAppend(ReversedFee, s.txns, t, WithStatus(s.txns[t], Reversed), ReversalRow(s, t, now));
    OnePosted(s, x, |s.txns|);
  }

  /** The accounting reads only the books and the rows. */
  lemma NothingMovedAccounting(s: State, r: State)
    requires AccountingOk(s) && r.books == s.books && r.txns == s.txns
    ensures AccountingOk(r)
  {
  }

  lemma ChargebackPostedAccounting(s: State, original: nat, reference: string, amount: int, now: int)
    requires WellFormed(s) && AccountingOk(s) && original < |s.txns| && s.txns[original].Funding?
             && IsCredited(s.txns[original].status)
    requires 0 < amount && !Taken(s, reference)
    ensures AccountingOk(ChargebackPosted(s, original, reference, amount, now))
  {
    hide BooksOk, Journal, UniqueReferences;
    var row := ChargebackRow(s, original, reference, amount, now);
    assert RowOk(s.txns, |s.books.balances|, original);
    InsertKeeps(s, row);
    PostedKeeps(Inserted(s, row), |s.txns|);
    InsertedPostedAccounting(s, row);
    RestatusAccounting(Posted(Inserted(s, row), |s.txns|), original, Disputed);
    NothingMovedAccounting(Restatus(Posted(Inserted(s, row), |s.txns|), original, Disputed),
        ChargebackPosted(s, original, reference, amount, now));
  }

  /** Recomputing the original's status after a dispute changed moves no money. */
  lemma RecomputedAccounting(s: State, d: nat, status: DisputeStatus, original: nat)
    requires WellFormed(s) && AccountingOk(s) && d < |s.disputes| && original < |s.txns|
    requires s.txns[original].Funding? && IsCredited(s.txns[original].status)
    ensures AccountingOk(Recomputed(WithDispute(s, d, status), original))
  {
    var marked := WithDispute(s, d, status);
    RestatusAccounting(marked, original, AggregateStatus(marked.txns, marked.disputes, original));
  }

  lemma DisputeFavoredAccounting(s: State, d: nat, now: int)
    requires WellFormed(s) && AccountingOk(s) && d < |s.disputes|
             && RowOk(s.txns, |s.books.balances|, s.disputes[d].chargeback)
    requires IsCredited(s.txns[s.txns[s.disputes[d].chargeback].reverses].status)
    requires !Taken(s, s.txns[s.disputes[d].chargeback].reference + "-resolved")
    ensures AccountingOk(DisputeFavored(s, d, now))
  {
    hide BooksOk, Journal, UniqueReferences;
    var c := s.disputes[d].chargeback;
    var row := ResolutionRow(s, c, now);
    InsertKeeps(s, row);
    InsertedPostedAccounting(s, row);
    PostedKeeps(Inserted(s, row), |s.txns|);
    var posted := Posted(Inserted(s, row), |s.txns|);
    RecomputedAccounting(posted, d, Resolved, s.txns[c].reverses);
    NothingMovedAccounting(Recomputed(WithDispute(posted, d, Resolved), s.txns[c].reverses), DisputeFavored(s, d, now));
  }
}
