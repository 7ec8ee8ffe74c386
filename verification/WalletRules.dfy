/**
 What bounds each user's wallet: it never falls below what its chargebacks left owing, a negative one
 is frozen, a capped one exceeds its cap only by compensating credits, and each day's debits stay within
 the tier's limit.
 */
module WalletRules {
  import opened Tables
  import opened Sums
  import opened Postings
  import opened Kyc
  import opened LedgerSpec
  import opened Evolution
  import opened Accounting
  import opened DisputeRules

  /** Credits no cap check guards: reversed withdrawals and chargebacks resolved in Cliqpay's favour. */
  function ExemptOn(wallet: nat): Transaction -> int {
    (t: Transaction) =>
      if t.Withdrawal? && t.sender == wallet && t.status == Reversed then t.amount + t.platformFee + t.providerFee
      else if t.ChargebackReversal? && t.recipient == wallet then t.amount
      else 0
  }

  function Exempt(txns: seq<Transaction>, wallet: nat): int { SumBy(ExemptOn(wallet), txns) }

  function Debited(txns: seq<Transaction>, wallet: nat, day: int): int { SumBy(DebitedOn(wallet, day), txns) }

  /** What was stamped on a day and checked no later than on it. */
  function InTime(txns: seq<Transaction>, wallet: nat, day: int): int { SumBy(InTimeOn(wallet, day), txns) }

  /** What was stamped on a day and checked on a later one. */
  function Late(txns: seq<Transaction>, wallet: nat, day: int): int { SumBy(LateOn(wallet, day), txns) }

  lemma {:induction false} InTimeOrLate(txns: seq<Transaction>, wallet: nat, day: int)
    ensures Debited(txns, wallet, day) == InTime(txns, wallet, day) + Late(txns, wallet, day)
  {
    if txns != [] {
      InTimeOrLate(txns[..|txns| - 1], wallet, day);
    }
  }

  ghost predicate WalletOk(balance: int, txns: seq<Transaction>, wallet: nat, user: User, limit: TierLimit) {
    && 0 <= balance + Owed(txns, wallet)
    && (balance < 0 ==> user.frozen)
    && (limit.balanceCap.Some? ==> balance <= limit.balanceCap.value + Exempt(txns, wallet))
    && (forall day: int :: InTime(txns, wallet, day) <= limit.dailyDebit)
  }

  ghost predicate UserOk(s: State, u: nat)
    requires u < |s.users| && |s.books.balances| == FIRST_WALLET + |s.users|
  {
    WalletOk(s.books.balances[WalletOf(u)], s.txns, WalletOf(u), s.users[u], LimitOf(s, u))
  }

  ghost predicate UsersOk(s: State) {
    && |s.books.balances| == FIRST_WALLET + |s.users|
    && LimitsRise(s.limits) && LimitsNonNegative(s.limits)
    && forall u :: 0 <= u < |s.users| ==> UserOk(s, u)
  }

  // ----- What a step does to the sums of one wallet -----

  lemma AppendSums(txns: seq<Transaction>, row: Transaction, w: nat)
    ensures Owed(txns + [row], w) == Owed(txns, w) + OwedOn(w)(row)
    ensures Exempt(txns + [row], w) == Exempt(txns, w) + ExemptOn(w)(row)
    ensures forall day: int :: InTime(txns + [row], w, day) == InTime(txns, w, day) + InTimeOn(w, day)(row)
  {
    SumAppend(OwedOn(w), txns, row);
    SumAppend(ExemptOn(w), txns, row);
    forall day: int
      ensures InTime(txns + [row], w, day) == InTime(txns, w, day) + InTimeOn(w, day)(row)
    {
      SumAppend(InTimeOn(w, day), txns, row);
    }
  }

  lemma UpdateSums(txns: seq<Transaction>, i: nat, row: Transaction, w: nat)
    requires i < |txns|
    ensures Owed(txns[i := row], w) == Owed(txns, w) - OwedOn(w)(txns[i]) + OwedOn(w)(row)
    ensures Exempt(txns[i := row], w) == Exempt(txns, w) - ExemptOn(w)(txns[i]) + ExemptOn(w)(row)
    ensures forall day: int ::
              InTime(txns[i := row], w, day)
              == InTime(txns, w, day) - InTimeOn(w, day)(txns[i]) + InTimeOn(w, day)(row)
  {
    SumUpdate(OwedOn(w), txns, i, row);
    SumUpdate(ExemptOn(w), txns, i, row);
    forall day: int
      ensures InTime(txns[i := row], w, day)
              == InTime(txns, w, day) - InTimeOn(w, day)(txns[i]) + InTimeOn(w, day)(row)
    {
      SumUpdate(InTimeOn(w, day), txns, i, row);
    }
  }

  /** Rows no wallet sum reads: fundings and their refunds, and withdrawals that stay or complete. */
  ghost predicate SumsIgnore(before: seq<Transaction>, after: seq<Transaction>) {
    && RowsEvolve(before, after)
    && (forall k :: 0 <= k < |before| && before[k].Withdrawal? ==>
        (before[k].status == Reversed) == (after[k].status == Reversed))
    && (forall k :: |before| <= k < |after| ==> after[k].Funding? || after[k].FundingRefund?)
  }

  lemma SumsStay(before: seq<Transaction>, after: seq<Transaction>, accounts: nat, w: nat)
    requires SumsIgnore(before, after) && RowsOk(before, accounts) && RowsOk(after, accounts)
    ensures Owed(after, w) == Owed(before, w) && Exempt(after, w) == Exempt(before, w)
    ensures forall day: int :: InTime(after, w, day) == InTime(before, w, day)
  {
    forall k | 0 <= k < |before|
      ensures CanBecome(before[k], after[k]) && RowOk(before, accounts, k) && RowOk(after, accounts, k)
    {
    }
    SumGrown(OwedOn(w), before, after);
    SumGrown(ExemptOn(w), before, after);
    forall day: int
      ensures InTime(after, w, day) == InTime(before, w, day)
    {
      SumGrown(InTimeOn(w, day), before, after);
    }
  }

  lemma PostedWallet(x: State, t: nat, w: nat)
    requires t < |x.txns| && FIRST_WALLET <= |x.books.balances| && RowOk(x.txns, |x.books.balances|, t)
    requires IsWallet(w) && w < |x.books.balances|
    ensures Posted(x, t).books.balances[w] == x.books.balances[w] + WalletDelta(x.txns, t, w)
  {
    LegsExist(x.txns, x.books.balances, t);
    PostOn(x.books, t, LegsOf(x.txns, t), w);
    LegsOnAccount(x.txns, |x.books.balances|, t, w);
  }

  // ----- The effects, as seen by one wallet -----

  lemma RegisterUsers(s: State)
    requires WellFormed(s) && UsersOk(s)
    ensures UsersOk(Register(s))
  {
    var r := Register(s);
    var w := WalletOf(|s.users|);
    forall k | 0 <= k < |s.txns|
      ensures OwedOn(w)(s.txns[k]) == 0 && ExemptOn(w)(s.txns[k]) == 0 && !CountsAsDebit(s.txns[k], w)
    {
      assert RowOk(s.txns, |s.books.balances|, k);
    }
    SumZero(OwedOn(w), s.txns);
    SumZero(ExemptOn(w), s.txns);
    forall day: int
      ensures InTime(s.txns, w, day) == 0
    {
      SumZero(InTimeOn(w, day), s.txns);
    }
    forall u | 0 <= u < |r.users|
      ensures UserOk(r, u)
    {
      if u < |s.users| {
        assert UserOk(s, u);
      }
    }
  }

  lemma VerifyIdentityUsers(s: State, user: nat, proof: Proof)
    requires WellFormed(s) && UsersOk(s) && user < |s.users|
    ensures UsersOk(VerifyIdentity(s, user, proof))
  {
    var r := VerifyIdentity(s, user, proof);
    forall u | 0 <= u < |r.users|
      ensures UserOk(r, u)
    {
      assert UserOk(s, u);
      assert TierRank(s.users[u].tier) <= TierRank(r.users[u].tier);
    }
  }

  lemma FundingCreditedUsers(s: State, t: nat, fee: int)
    requires WellFormed(s) && UsersOk(s) && t < |s.txns| && s.txns[t].Funding? && s.txns[t].status == Pending
             && 0 <= fee
    requires RowOk(s.txns, |s.books.balances|, t)
    requires EvaluateCap(LimitOf(s, OwnerOf(s.txns[t].recipient)), s.books.balances[s.txns[t].recipient], 0,
             s.txns[t].amount).Allowed?
    ensures UsersOk(FundingCredited(s, t, fee))
  {
    var x := Claimed(s, t, Completed, fee);
    ClaimedEvolves(s, t, Completed, fee);
    SumsNonNegative(s);
    forall u | 0 <= u < |s.users|
      ensures UserOk(FundingCredited(s, t, fee), u)
    {
      assert UserOk(s, u);
      SumsStay(s.txns, x.txns, |s.books.balances|, WalletOf(u));
      PostedWallet(x, t, WalletOf(u));
    }
  }

  lemma SumsNonNegative(s: State)
    requires WellFormed(s)
    ensures forall w: nat :: 0 <= Exempt(s.txns, w)
  {
    forall w: nat
      ensures 0 <= Exempt(s.txns, w)
    {
      forall k | 0 <= k < |s.txns|
        ensures 0 <= ExemptOn(w)(s.txns[k])
      {
        assert RowOk(s.txns, |s.books.balances|, k);
      }
      SumNonNegative(ExemptOn(w), s.txns);
    }
  }

  /** A posting that touches no wallet: into suspense, or out of it. */
  lemma SuspensePostingUsers(s: State, x: State, t: nat)
    requires WellFormed(s) && UsersOk(s) && WellFormed(x) && x.books == s.books && x.users == s.users
             && x.limits == s.limits
    requires SumsIgnore(s.txns, x.txns) && t < |x.txns| && RowOk(x.txns, |x.books.balances|, t)
    requires (x.txns[t].Funding? && x.txns[t].status == Held) || x.txns[t].FundingRefund?
    ensures UsersOk(Posted(x, t))
  {
    forall u | 0 <= u < |s.users|
      ensures UserOk(Posted(x, t), u)
    {
      assert UserOk(s, u);
      SumsStay(s.txns, x.txns, |s.books.balances|, WalletOf(u));
      PostedWallet(x, t, WalletOf(u));
    }
  }

  /** Rows that move no money and that no wallet sum reads. */
  lemma NothingMovedUsers(s: State, r: State)
    requires WellFormed(s) && UsersOk(s) && WellFormed(r) && r.books == s.books && r.users == s.users
             && r.limits == s.limits
    requires SumsIgnore(s.txns, r.txns)
    ensures UsersOk(r)
  {
    forall u | 0 <= u < |s.users|
      ensures UserOk(r, u)
    {
      assert UserOk(s, u);
      SumsStay(s.txns, r.txns, |s.books.balances|, WalletOf(u));
    }
  }

  /** A passed check leaves room on the local day it is made, and on every later one. */
  lemma DailyCheckFits(s: State, limit: TierLimit, w: nat, amount: int, now: int, day: int)
    requires WellFormed(s) && CheckDailyLimit(limit, s.txns, w, amount, now).None? && DayOf(now) <= day
    ensures Debited(s.txns, w, day) + amount <= limit.dailyDebit
    ensures InTime(s.txns, w, day) + amount <= limit.dailyDebit
  {
    forall k | 0 <= k < |s.txns|
      ensures 0 <= s.txns[k].amount
    {
      assert RowOk(s.txns, |s.books.balances|, k);
    }
    DayWithinSince(s.txns, w, now, day);
    InTimeOrLate(s.txns, w, day);
    SumNonNegative(LateOn(w, day), s.txns);
  }

  lemma TransferPostedUsers(s: State, o: TransferOrder, c: Context)
    requires WellFormed(s) && UsersOk(s) && DisputesOk(s.txns, s.disputes) && OrderOk(s, o) && o.sender != o.recipient
    requires CheckDailyLimit(LimitOf(s, o.sender), s.txns, WalletOf(o.sender), o.amount, c.now).None?
    requires var (balance, pending) := BalanceAndPending(s, o.recipient, c.now);
             EvaluateCap(LimitOf(s, o.recipient), balance, pending, o.amount).Allowed?
    requires o.amount + o.fee <= s.books.balances[WalletOf(o.sender)]
    ensures UsersOk(TransferPosted(s, o, c))
  {
    var x := Inserted(s, TransferRow(o, c));
    if DayOf(c.now) <= DayOf(c.stamp) {
      DailyCheckFits(s, LimitOf(s, o.sender), WalletOf(o.sender), o.amount, c.now, DayOf(c.stamp));
    }
    PendingNonNegative(s, o.recipient, c.now);
    SumsNonNegative(s);
    forall u | 0 <= u < |s.users|
      ensures UserOk(TransferPosted(s, o, c), u)
    {
      assert UserOk(s, u);
      AppendSums(s.txns, TransferRow(o, c), WalletOf(u));
      PostedWallet(x, |s.txns|, WalletOf(u));
      OwedNonNegative(s, WalletOf(u));
    }
  }

  lemma PendingNonNegative(s: State, user: nat, now: int)
    requires WellFormed(s) && user < |s.users|
    ensures 0 <= BalanceAndPending(s, user, now).1
  {
    var f := PendingFunding(WalletOf(user), now - PENDING_FUNDING_WINDOW_MS);
    forall k | 0 <= k < |s.txns|
      ensures 0 <= f(s.txns[k])
    {
      assert RowOk(s.txns, |s.books.balances|, k);
    }
    SumNonNegative(f, s.txns);
  }

  lemma WithdrawalPostedUsers(s: State, o: WithdrawalOrder, c: Context)
    requires WellFormed(s) && UsersOk(s) && DisputesOk(s.txns, s.disputes) && WithdrawalOrderOk(s, o)
    requires CheckDailyLimit(LimitOf(s, o.user), s.txns, WalletOf(o.user), o.amount, c.now).None?
    requires o.amount + o.platformFee + o.providerFee <= s.books.balances[WalletOf(o.user)]
    ensures UsersOk(WithdrawalPosted(s, o, c))
  {
    var x := Inserted(s, WithdrawalRow(o, c));
    if DayOf(c.now) <= DayOf(c.stamp) {
      DailyCheckFits(s, LimitOf(s, o.user), WalletOf(o.user), o.amount, c.now, DayOf(c.stamp));
    }
    forall u | 0 <= u < |s.users|
      ensures UserOk(WithdrawalPosted(s, o, c), u)
    {
      assert UserOk(s, u);
      AppendSums(s.txns, WithdrawalRow(o, c), WalletOf(u));
      PostedWallet(x, |s.txns|, WalletOf(u));
      OwedNonNegative(s, WalletOf(u));
    }
  }

  lemma WithdrawalReversedUser(s: State, t: nat, now: int, u: nat)
    requires WellFormed(s) && UsersOk(s) && t < |s.txns| && s.txns[t].Withdrawal? && s.txns[t].status == Pending
    requires RowOk(s.txns, |s.books.balances|, t) && u < |s.users|
    ensures UserOk(WithdrawalReversed(s, t, now), u)
  {
    hide RowsOk, UniqueReferences, LegsOf;
    var marked := Restatus(s, t, Reversed);
    assert UserOk(s, u);
    UpdateSums(s.txns, t, marked.txns[t], WalletOf(u));
    AppendSums(marked.txns, ReversalRow(s, t, now), WalletOf(u));
    PostedWallet(Inserted(marked, ReversalRow(s, t, now)), |s.txns|, WalletOf(u));
  }

  lemma WithdrawalReversedUsers(s: State, t: nat, now: int)
    requires WellFormed(s) && UsersOk(s) && t < |s.txns| && s.txns[t].Withdrawal? && s.txns[t].status == Pending
    ensures UsersOk(WithdrawalReversed(s, t, now))
  {
    hide UserOk;
    assert RowOk(s.txns, |s.books.balances|, t);
    forall u | 0 <= u < |s.users|
      ensures UserOk(WithdrawalReversed(s, t, now), u)
    {
      WithdrawalReversedUser(s, t, now, u);
    }
  }

  lemma ChargebackPostedUser(s: State, original: nat, reference: string, amount: int, now: int, u: nat)
    requires WellFormed(s) && UsersOk(s) && original < |s.txns| && s.txns[original].Funding? && 0 < amount
    requires RowOk(s.txns, |s.books.balances|, original) && u < |s.users|
    ensures UserOk(ChargebackPosted(s, original, reference, amount, now), u)
  {
    hide RowsOk, UniqueReferences, LegsOf;
    var row := ChargebackRow(s, original, reference, amount, now);
    var x := Inserted(s, row);
    assert UserOk(s, u);
    AppendSums(s.txns, row, WalletOf(u));
    UpdateSums(x.txns, original, WithStatus(x.txns[original], Disputed), WalletOf(u));
    PostedWallet(x, |s.txns|, WalletOf(u));
  }

  /** The chargeback that takes a balance below zero freezes its owner in the same step. */
  lemma ChargebackPostedUsers(s: State, original: nat, reference: string, amount: int, now: int)
    requires WellFormed(s) && UsersOk(s) && original < |s.txns| && s.txns[original].Funding? && 0 < amount
    ensures UsersOk(ChargebackPosted(s, original, reference, amount, now))
  {
    hide UserOk;
    assert RowOk(s.txns, |s.books.balances|, original);
    forall u | 0 <= u < |s.users|
      ensures UserOk(ChargebackPosted(s, original, reference, amount, now), u)
    {
      ChargebackPostedUser(s, original, reference, amount, now, u);
    }
  }

  lemma DisputeUpheldUsers(s: State, d: nat)
    requires WellFormed(s) && UsersOk(s) && d < |s.disputes|
             && RowOk(s.txns, |s.books.balances|, s.disputes[d].chargeback)
    requires s.txns[s.txns[s.disputes[d].chargeback].reverses].Funding?
    ensures UsersOk(DisputeUpheld(s, d))
  {
    var o := s.txns[s.disputes[d].chargeback].reverses;
    var r := DisputeUpheld(s, d);
    forall u | 0 <= u < |s.users|
      ensures UserOk(r, u)
    {
      assert UserOk(s, u);
      UpdateSums(s.txns, o, r.txns[o], WalletOf(u));
    }
  }

  /** The compensating credit reduces what is owed by what it pays back. */
  lemma FavoredWallet(s: State, d: nat, row: Transaction, status: Status, w: nat)
    requires WellFormed(s) && d < |s.disputes| && RowOk(s.txns + [row], |s.books.balances|, |s.txns|)
             && row.ChargebackReversal?
    requires IsWallet(w) && w < |s.books.balances|
    requires var o := s.txns[s.disputes[d].chargeback].reverses; o < |s.txns| && s.txns[o].Funding?
    ensures var o := s.txns[s.disputes[d].chargeback].reverses;
            var txns := (s.txns + [row])[o := WithStatus(s.txns[o], status)];
            var credit := if row.recipient == w then row.amount else 0;
            && Posted(Inserted(s, row), |s.txns|).books.balances[w] == s.books.balances[w] + credit
            && Owed(txns, w) == Owed(s.txns, w) - credit && Exempt(txns, w) == Exempt(s.txns, w) + credit
            && forall day: int :: InTime(txns, w, day) == InTime(s.txns, w, day)
  {
    var o := s.txns[s.disputes[d].chargeback].reverses;
    AppendSums(s.txns, row, w);
    UpdateSums(s.txns + [row], o, WithStatus(s.txns[o], status), w);
    PostedWallet(Inserted(s, row), |s.txns|, w);
  }

  /** A freeze is lifted only at a balance that is not negative. */
  lemma DisputeFavoredUsers(s: State, d: nat, now: int)
    requires WellFormed(s) && UsersOk(s) && d < |s.disputes|
             && RowOk(s.txns, |s.books.balances|, s.disputes[d].chargeback)
    ensures UsersOk(DisputeFavored(s, d, now))
  {
    var c := s.disputes[d].chargeback;
    var o := s.txns[c].reverses;
    var row := ResolutionRow(s, c, now);
    var r := DisputeFavored(s, d, now);
    var status := AggregateStatus(s.txns + [row], s.disputes[d := s.disputes[d].(status := Resolved)], o);
    assert r.txns == (s.txns + [row])[o := WithStatus(s.txns[o], status)];
    assert r.books == Posted(Inserted(s, row), |s.txns|).books;
    var owner := OwnerOf(row.recipient);
    assert r.users == s.users || (r.users == s.users[owner := s.users[owner].(frozen := false)]
        && 0 <= r.books.balances[row.recipient]);
    FavoredUsers(s, d, row, status, r);
  }

  lemma FavoredUsers(s: State, d: nat, row: Transaction, status: Status, r: State)
    requires WellFormed(s) && UsersOk(s) && d < |s.disputes| && RowOk(s.txns + [row], |s.books.balances|, |s.txns|)
             && row.ChargebackReversal?
    requires var o := s.txns[s.disputes[d].chargeback].reverses;
             o < |s.txns| && s.txns[o].Funding? && r.txns == (s.txns + [row])[o := WithStatus(s.txns[o], status)]
    requires r.books == Posted(Inserted(s, row), |s.txns|).books && r.limits == s.limits
    requires var owner := OwnerOf(row.recipient);
             r.users == s.users || (r.users == s.users[owner := s.users[owner].(frozen := false)]
                 && 0 <= r.books.balances[row.recipient])
    ensures UsersOk(r)
  {
    forall u | 0 <= u < |s.users|
      ensures UserOk(r, u)
    {
      assert UserOk(s, u);
      FavoredWallet(s, d, row, status, WalletOf(u));
    }
  }
}
