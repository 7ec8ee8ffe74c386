/**
 Double-entry posting: which legs a transaction row calls for, and what posting them does to the
 cached balances and the entries.
 */
module Postings {
  import opened Tables
  import opened Sums

  // ----- The chart of accounts -----

  /** Assets and expenses grow on a debit, everything else on a credit. */
  predicate GrowsOnDebit(account: nat) { account == FLOAT || account == FEE_EXPENSE }

  /** What a leg is worth to its account under the chart of accounts. */
  function SignedDelta(leg: Leg): int {
    if GrowsOnDebit(leg.account) == leg.direction.Debit? then leg.amount else -leg.amount
  }

  /**
   What the service adds to the cached balance for a leg. It is the signed amount, except that a
   withdrawal reversal adds the provider fee to fee_expense although the entry it writes is a credit.
   */
  function CachedDelta(leg: Leg): int {
    if leg.account == FEE_EXPENSE then leg.amount else SignedDelta(leg)
  }

  // ----- Posting -----

  predicate AccountsExist(balances: seq<int>, legs: seq<Leg>) {
    forall i :: 0 <= i < |legs| ==> legs[i].account < |balances|
  }

  function PostLeg(b: Books, txn: nat, leg: Leg): (r: Books)
    requires leg.account < |b.balances|
    ensures |r.balances| == |b.balances|
  {
    var balance := b.balances[leg.account] + CachedDelta(leg);
    Books(b.balances[leg.account := balance], b.entries + [Entry(txn, leg, balance)])
  }

  function Post(b: Books, txn: nat, legs: seq<Leg>): (r: Books)
    requires AccountsExist(b.balances, legs)
    ensures |r.balances| == |b.balances|
  {
    if legs == [] then b
    else PostLeg(Post(b, txn, legs[..|legs| - 1]), txn, legs[|legs| - 1])
  }

  // ----- The legs each row calls for -----

  function ProviderFee(funding: Transaction): int
    requires funding.Funding?
  {
    if funding.gross.Some? then funding.gross.value - funding.amount else 0
  }

  function FundingLegs(into: nat, net: int, fee: int): seq<Leg> {
    [Leg(FLOAT, Debit, net), Leg(into, Credit, net), Leg(FEE_EXPENSE, Debit, fee), Leg(FEE_RECOVERY, Credit, fee)]
  }

  function RefundLegs(amount: int): seq<Leg> { [Leg(SUSPENSE, Debit, amount), Leg(FLOAT, Credit, amount)] }

  function TransferLegs(sender: nat, recipient: nat, amount: int, fee: int): seq<Leg> {
    [Leg(sender, Debit, amount + fee), Leg(recipient, Credit, amount)]
    + if fee > 0 then [Leg(FEE_INCOME, Credit, fee)] else []
  }

  function WithdrawalLegs(wallet: nat, amount: int, platformFee: int, providerFee: int): seq<Leg> {
    [Leg(wallet, Debit, amount + platformFee + providerFee),
     Leg(FLOAT, Credit, amount + providerFee),
     Leg(FEE_INCOME, Credit, platformFee),
     Leg(FEE_EXPENSE, Debit, providerFee),
     Leg(FEE_RECOVERY, Credit, providerFee)]
  }

  /** A chargeback or its resolution: the debit is written first. */
  function WalletAndFloatLegs(wallet: nat, amount: int, walletDirection: Direction): seq<Leg> {
    if walletDirection.Debit? then [Leg(wallet, Debit, amount), Leg(FLOAT, Credit, amount)]
    else [Leg(FLOAT, Debit, amount), Leg(wallet, Credit, amount)]
  }

  function Opposite(direction: Direction): Direction {
    if direction == Debit then Credit else Debit
  }

  /** A compensating posting: the same legs in the opposite direction. */
  function Mirror(legs: seq<Leg>): (r: seq<Leg>)
    ensures |r| == |legs|
    ensures forall i :: 0 <= i < |legs| ==> r[i] == legs[i].(direction := Opposite(legs[i].direction))
  {
    seq(|legs|, i requires 0 <= i < |legs| => legs[i].(direction := Opposite(legs[i].direction)))
  }

  /** The legs the row at `t` must have in `ledger_entries`, given its type and status. */
  function LegsOf(txns: seq<Transaction>, t: nat): seq<Leg>
    requires t < |txns|
  {
    match txns[t]
    case Funding(_, status, amount, recipient, _, _) =>
      if IsCredited(status) then FundingLegs(recipient, amount, ProviderFee(txns[t]))
      else if WasHeld(status) then FundingLegs(SUSPENSE, amount, ProviderFee(txns[t]))
      else []
    case FundingRefund(_, status, amount, _, _, _) =>
      if status == Completed then RefundLegs(amount) else []
    case P2PTransfer(_, _, amount, sender, recipient, fee, _, _, _, _) =>
      TransferLegs(sender, recipient, amount, fee)
    case Withdrawal(_, _, amount, sender, platformFee, providerFee, _, _, _) =>
      WithdrawalLegs(sender, amount, platformFee, providerFee)
    case WithdrawalReversal(_, _, _, reverses, _, _) =>
      if reverses < |txns| && txns[reverses].Withdrawal?
      then var w := txns[reverses]; Mirror(WithdrawalLegs(w.sender, w.amount, w.platformFee, w.providerFee))
      else []
    case Chargeback(_, _, amount, _, sender, _) =>
      WalletAndFloatLegs(sender, amount, Debit)
    case ChargebackReversal(_, _, amount, _, recipient, _) =>
      WalletAndFloatLegs(recipient, amount, Credit)
  }

  /** The legs already posted for a transaction, in the order they were written. */
  function LegsPosted(entries: seq<Entry>, txn: nat): seq<Leg> {
    if entries == [] then []
    else
      var last := entries[|entries| - 1];
      LegsPosted(entries[..|entries| - 1], txn) + if last.txn == txn then [last.leg] else []
  }

  // ----- Aggregates over entries and legs -----

  function CachedOn(account: nat): Entry -> int {
    (e: Entry) => if e.leg.account == account then CachedDelta(e.leg) else 0
  }

  function SignedOn(account: nat): Entry -> int {
    (e: Entry) => if e.leg.account == account then SignedDelta(e.leg) else 0
  }

  /** Debits less credits of one transaction: zero when its entry set balances. */
  function DebitsLessCredits(txn: nat): Entry -> int {
    (e: Entry) => if e.txn == txn then LegDebitsLessCredits(e.leg) else 0
  }

  function LegDebitsLessCredits(leg: Leg): int {
    if leg.direction.Debit? then leg.amount else -leg.amount
  }

  function FeeExpenseCredit(e: Entry): int {
    if e.leg.account == FEE_EXPENSE && e.leg.direction.Credit? then e.leg.amount else 0
  }

  function Id(x: int): int { x }

  function WalletTotal(balances: seq<int>): int
    requires FIRST_WALLET <= |balances|
  {
    SumBy(Id, balances[FIRST_WALLET..])
  }

  /** Float less everything owed out of it. Zero is the invariant of section 4.3 of the architecture document. */
  function Imbalance(balances: seq<int>): int
    requires FIRST_WALLET <= |balances|
  {
    balances[FLOAT] - balances[SUSPENSE] - balances[FEE_INCOME] - WalletTotal(balances)
  }

  /** What one leg does to `Imbalance`. */
  function ImbalanceDelta(leg: Leg): int {
    if leg.account == FEE_EXPENSE || leg.account == FEE_RECOVERY then 0 else LegDebitsLessCredits(leg)
  }

  /** What one leg does to the gap between the cached fee_expense and fee_recovery. */
  function FeeGapDelta(leg: Leg): int {
    if leg.account == FEE_EXPENSE then CachedDelta(leg)
    else if leg.account == FEE_RECOVERY then -SignedDelta(leg)
    else 0
  }

  // ----- The books invariant -----

  ghost predicate CacheFollowsEntries(b: Books) {
    && (forall k :: 0 <= k < |b.entries| ==> b.entries[k].leg.account < |b.balances|)
    && (forall a :: 0 <= a < |b.balances| ==> b.balances[a] == SumBy(CachedOn(a), b.entries))
    && (forall k :: 0 <= k < |b.entries| ==> RunningIsRight(b.entries, k))
  }

  /** The running balance an entry carries is its account's total up to and including it. */
  ghost predicate RunningIsRight(entries: seq<Entry>, k: nat)
    requires k < |entries|
  {
    entries[k].running == SumBy(CachedOn(entries[k].leg.account), entries[..k + 1])
  }

  ghost predicate EntrySetsBalance(entries: seq<Entry>) {
    forall txn: nat :: SumBy(DebitsLessCredits(txn), entries) == 0
  }

  lemma PostLegKeepsCache(b: Books, txn: nat, leg: Leg)
    requires CacheFollowsEntries(b) && leg.account < |b.balances|
    ensures CacheFollowsEntries(PostLeg(b, txn, leg))
  {
    var r := PostLeg(b, txn, leg);
    var e := r.entries[|b.entries|];
    forall a | 0 <= a < |r.balances|
      ensures r.balances[a] == SumBy(CachedOn(a), r.entries)
    {
      SumAppend(CachedOn(a), b.entries, e);
    }
    forall k | 0 <= k < |r.entries|
      ensures RunningIsRight(r.entries, k)
    {
      if k < |b.entries| {
        assert RunningIsRight(b.entries, k);
        assert r.entries[..k + 1] == b.entries[..k + 1];
      } else {
        assert r.entries[..k + 1] == r.entries;
      }
    }
  }

  /** Posting any legs keeps every cached and running balance equal to the fold of its entries. */
  lemma {:induction false} PostKeepsCache(b: Books, txn: nat, legs: seq<Leg>)
    requires CacheFollowsEntries(b) && AccountsExist(b.balances, legs)
    ensures CacheFollowsEntries(Post(b, txn, legs))
  {
    if legs != [] {
      var n := |legs| - 1;
      PostKeepsCache(b, txn, legs[..n]);
      PostLegKeepsCache(Post(b, txn, legs[..n]), txn, legs[n]);
    }
  }

  lemma {:induction false} PostImbalance(b: Books, txn: nat, legs: seq<Leg>)
    requires FIRST_WALLET <= |b.balances| && AccountsExist(b.balances, legs)
    ensures Imbalance(Post(b, txn, legs).balances) == Imbalance(b.balances) + SumBy(ImbalanceDelta, legs)
  {
    if legs != [] {
      var n := |legs| - 1;
      PostImbalance(b, txn, legs[..n]);
      var before := Post(b, txn, legs[..n]).balances;
      var a := legs[n].account;
      var balance := before[a] + CachedDelta(legs[n]);
      if IsWallet(a) {
        assert before[a := balance][FIRST_WALLET..] == before[FIRST_WALLET..][a - FIRST_WALLET := balance];
        SumUpdate(Id, before[FIRST_WALLET..], a - FIRST_WALLET, balance);
      } else {
        assert before[a := balance][FIRST_WALLET..] == before[FIRST_WALLET..];
      }
    }
  }

  lemma {:induction false} PostFeeGap(b: Books, txn: nat, legs: seq<Leg>)
    requires FIRST_WALLET <= |b.balances| && AccountsExist(b.balances, legs)
    ensures var r := Post(b, txn, legs).balances;
            r[FEE_EXPENSE] - r[FEE_RECOVERY]
            == b.balances[FEE_EXPENSE] - b.balances[FEE_RECOVERY] + SumBy(FeeGapDelta, legs)
  {
    if legs != [] {
      PostFeeGap(b, txn, legs[..|legs| - 1]);
    }
  }

  lemma {:induction false} PostEntrySets(b: Books, txn: nat, legs: seq<Leg>)
    requires EntrySetsBalance(b.entries) && AccountsExist(b.balances, legs)
    requires SumBy(LegDebitsLessCredits, legs) == 0
    ensures EntrySetsBalance(Post(b, txn, legs).entries)
  {
    forall t: nat
      ensures SumBy(DebitsLessCredits(t), Post(b, txn, legs).entries) == 0
    {
      PostDebitsLessCredits(b, txn, legs, t);
    }
  }

  lemma {:induction false} PostDebitsLessCredits(b: Books, txn: nat, legs: seq<Leg>, t: nat)
    requires AccountsExist(b.balances, legs)
    ensures SumBy(DebitsLessCredits(t), Post(b, txn, legs).entries)
            == SumBy(DebitsLessCredits(t), b.entries) + if t == txn then SumBy(LegDebitsLessCredits, legs) else 0
  {
    if legs != [] {
      var n := |legs| - 1;
      PostDebitsLessCredits(b, txn, legs[..n], t);
      var before := Post(b, txn, legs[..n]);
      SumAppend(DebitsLessCredits(t), before.entries, PostLeg(before, txn, legs[n]).entries[|before.entries|]);
    }
  }

  lemma {:induction false} PostLegsPosted(b: Books, txn: nat, legs: seq<Leg>, t: nat)
    requires AccountsExist(b.balances, legs)
    ensures LegsPosted(Post(b, txn, legs).entries, t) == LegsPosted(b.entries, t) + if t == txn then legs else []
  {
    if legs != [] {
      var n := |legs| - 1;
      PostLegsPosted(b, txn, legs[..n], t);
      var before := Post(b, txn, legs[..n]);
      var r := PostLeg(before, txn, legs[n]);
      assert r.entries[..|before.entries|] == before.entries;
      assert legs == legs[..n] + [legs[n]];
    }
  }

  /** Only the accounts named by a leg move. */
  lemma {:induction false} PostFrame(b: Books, txn: nat, legs: seq<Leg>, a: nat)
    requires AccountsExist(b.balances, legs) && a < |b.balances|
    requires forall i :: 0 <= i < |legs| ==> legs[i].account != a
    ensures Post(b, txn, legs).balances[a] == b.balances[a]
  {
    if legs != [] {
      PostFrame(b, txn, legs[..|legs| - 1], a);
    }
  }

  // ----- Postings written out -----

  lemma SumOf2<T>(f: T -> int, a: T, b: T)
    ensures SumBy(f, [a, b]) == f(a) + f(b)
  {
    assert [a, b][..1] == [a];
    assert [a] == [] + [a];
    SumAppend(f, [], a);
  }

  lemma SumOf3<T>(f: T -> int, a: T, b: T, c: T)
    ensures SumBy(f, [a, b, c]) == f(a) + f(b) + f(c)
  {
    SumOf2(f, a, b);
    assert [a, b, c][..2] == [a, b];
  }

  lemma SumOf4<T>(f: T -> int, a: T, b: T, c: T, d: T)
    ensures SumBy(f, [a, b, c, d]) == f(a) + f(b) + f(c) + f(d)
  {
    SumOf3(f, a, b, c);
    assert [a, b, c, d][..3] == [a, b, c];
  }

  lemma SumOf5<T>(f: T -> int, a: T, b: T, c: T, d: T, e: T)
    ensures SumBy(f, [a, b, c, d, e]) == f(a) + f(b) + f(c) + f(d) + f(e)
  {
    SumOf4(f, a, b, c, d);
    assert [a, b, c, d, e][..4] == [a, b, c, d];
  }

  /** Debits equal credits, and no money enters or leaves the float side of section 4.3 unmatched. */
  ghost predicate Balanced(legs: seq<Leg>) {
    SumBy(LegDebitsLessCredits, legs) == 0 && SumBy(ImbalanceDelta, legs) == 0
  }

  /** Posting one more leg is posting it after the others. */
  lemma PostAppend(b: Books, txn: nat, legs: seq<Leg>, leg: Leg)
    requires AccountsExist(b.balances, legs) && leg.account < |b.balances|
    ensures AccountsExist(b.balances, legs + [leg])
    ensures Post(b, txn, legs + [leg]) == PostLeg(Post(b, txn, legs), txn, leg)
  {
    assert (legs + [leg])[..|legs|] == legs;
  }

  function NewBalance(b: Books, leg: Leg): int
    requires leg.account < |b.balances|
  {
    b.balances[leg.account] + CachedDelta(leg)
  }

  function NewEntry(b: Books, txn: nat, leg: Leg): Entry
    requires leg.account < |b.balances|
  {
    Entry(txn, leg, NewBalance(b, leg))
  }

  // Legs on distinct accounts, written as the service writes them: all new balances, then all entries.

  lemma Post2(b: Books, txn: nat, l0: Leg, l1: Leg)
    requires l0.account < |b.balances| && l1.account < |b.balances|
    requires l0.account != l1.account
    ensures AccountsExist(b.balances, [l0, l1])
    ensures Post(b, txn, [l0, l1])
            == Books(b.balances[l0.account := NewBalance(b, l0)][l1.account := NewBalance(b, l1)],
                     b.entries + [NewEntry(b, txn, l0), NewEntry(b, txn, l1)])
  {
    PostAppend(b, txn, [], l0);
    assert [] + [l0] == [l0] && [l0] + [l1] == [l0, l1];
    PostAppend(b, txn, [l0], l1);
  }

  lemma Post3(b: Books, txn: nat, l0: Leg, l1: Leg, l2: Leg)
    requires l0.account < |b.balances| && l1.account < |b.balances| && l2.account < |b.balances|
    requires l0.account != l1.account
    requires l2.account !in {l0.account, l1.account}
    ensures AccountsExist(b.balances, [l0, l1, l2])
    ensures Post(b, txn, [l0, l1, l2])
            == Books(b.balances[l0.account := NewBalance(b, l0)][l1.account := NewBalance(b, l1)]
                     [l2.account := NewBalance(b, l2)],
                     b.entries + [NewEntry(b, txn, l0), NewEntry(b, txn, l1), NewEntry(b, txn, l2)])
  {
    Post2(b, txn, l0, l1);
    assert [l0, l1] + [l2] == [l0, l1, l2];
    PostAppend(b, txn, [l0, l1], l2);
  }

  lemma Post4(b: Books, txn: nat, l0: Leg, l1: Leg, l2: Leg, l3: Leg)
    requires l0.account < |b.balances| && l1.account < |b.balances| && l2.account < |b.balances|
    requires l3.account < |b.balances|
    requires l0.account != l1.account
    requires l2.account !in {l0.account, l1.account}
    requires l3.account !in {l0.account, l1.account, l2.account}
    ensures AccountsExist(b.balances, [l0, l1, l2, l3])
    ensures Post(b, txn, [l0, l1, l2, l3])
            == Books(b.balances[l0.account := NewBalance(b, l0)][l1.account := NewBalance(b, l1)]
                     [l2.account := NewBalance(b, l2)][l3.account := NewBalance(b, l3)],
                     b.entries + [NewEntry(b, txn, l0), NewEntry(b, txn, l1), NewEntry(b, txn, l2),
                         NewEntry(b, txn, l3)])
  {
    Post3(b, txn, l0, l1, l2);
    assert [l0, l1, l2] + [l3] == [l0, l1, l2, l3];
    PostAppend(b, txn, [l0, l1, l2], l3);
  }

  lemma Post5(b: Books, txn: nat, l0: Leg, l1: Leg, l2: Leg, l3: Leg, l4: Leg)
    requires l0.account < |b.balances| && l1.account < |b.balances| && l2.account < |b.balances|
    requires l3.account < |b.balances| && l4.account < |b.balances|
    requires l0.account != l1.account
    requires l2.account !in {l0.account, l1.account}
    requires l3.account !in {l0.account, l1.account, l2.account}
    requires l4.account !in {l0.account, l1.account, l2.account, l3.account}
    ensures AccountsExist(b.balances, [l0, l1, l2, l3, l4])
    ensures Post(b, txn, [l0, l1, l2, l3, l4])
            == Books(b.balances[l0.account := NewBalance(b, l0)][l1.account := NewBalance(b, l1)]
                     [l2.account := NewBalance(b, l2)][l3.account := NewBalance(b, l3)]
                     [l4.account := NewBalance(b, l4)],
                     b.entries + [NewEntry(b, txn, l0), NewEntry(b, txn, l1), NewEntry(b, txn, l2),
                         NewEntry(b, txn, l3), NewEntry(b, txn, l4)])
  {
    Post4(b, txn, l0, l1, l2, l3);
    assert [l0, l1, l2, l3] + [l4] == [l0, l1, l2, l3, l4];
    PostAppend(b, txn, [l0, l1, l2, l3], l4);
  }
}
