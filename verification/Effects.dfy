/**
 What an operation reads of the tables and what it leaves, in the tables' own columns: the aggregates behind the
 limits, and the balances and entries of one posting. The outcomes are stated with these.
 */
module Effects {
  import opened Tables
  import opened Sums
  import opened Postings
  import opened Kyc
  import opened LedgerSpec

  // ----- Reading the tables -----

  /** `SELECT SUM(amount) ... WHERE p`. */
  function AmountWhere(txns: seq<Transaction>, p: Transaction -> bool): int {
    if txns == [] then 0
    else
      var last := txns[|txns| - 1];
      AmountWhere(txns[..|txns| - 1], p) + if p(last) then last.amount else 0
  }

  /** `SELECT COUNT(*) ... WHERE p`. */
  function CountWhere(txns: seq<Transaction>, p: Transaction -> bool): nat {
    if txns == [] then 0 else CountWhere(txns[..|txns| - 1], p) + if p(txns[|txns| - 1]) then 1 else 0
  }

  lemma {:induction false} SumIsAmount(f: Transaction -> int, p: Transaction -> bool, txns: seq<Transaction>)
    requires forall t :: f(t) == if p(t) then t.amount else 0
    ensures SumBy(f, txns) == AmountWhere(txns, p)
  {
    if txns != [] {
      SumIsAmount(f, p, txns[..|txns| - 1]);
    }
  }

  lemma {:induction false} SumIsCount(f: Transaction -> int, p: Transaction -> bool, txns: seq<Transaction>)
    requires forall t :: f(t) == if p(t) then 1 else 0
    ensures SumBy(f, txns) == CountWhere(txns, p)
  {
    if txns != [] {
      SumIsCount(f, p, txns[..|txns| - 1]);
    }
  }

  predicate Unused(s: State, reference: string) { forall t :: 0 <= t < |s.txns| ==> s.txns[t].reference != reference }

  /** Within a daily limit; a limit of zero allows nothing. */
  predicate Within(limit: TierLimit, spent: int, amount: int) {
    limit.dailyDebit != 0 && spent + amount <= limit.dailyDebit
  }

  /** Under the balance cap, if there is one; a cap of zero allows nothing. */
  predicate Fits(limit: TierLimit, balance: int, amount: int) {
    limit.balanceCap.Some? ==> limit.balanceCap.value != 0 && balance + amount <= limit.balanceCap.value
  }

  /** Principal sent or withdrawn, unless reversed, on a local day or later. */
  function SpentFrom(wallet: nat, day: int): Transaction -> bool {
    (t: Transaction) => (t.P2PTransfer? || t.Withdrawal?) && t.sender == wallet && t.status in {Pending, Completed}
        && day <= DayOf(t.createdAt)
  }

  function PendingInto(wallet: nat, since: int): Transaction -> bool {
    (t: Transaction) => t.Funding? && t.status == Pending && t.recipient == wallet && since <= t.createdAt
  }

  /** What a user may still spend: the limit is on principal, and fees do not count. */
  ghost predicate MaySpend(s: State, user: nat, amount: int, now: int)
    requires user < |s.users|
  {
    Within(s.limits.For(s.users[user].tier), AmountWhere(s.txns, SpentFrom(WalletOf(user), DayOf(now))), amount)
  }

  /** What a user may still receive, with the fundings still pending after at most a day counted as received. */
  ghost predicate MayReceive(s: State, user: nat, amount: int, now: int)
    requires user < |s.users| && WalletOf(user) < |s.books.balances|
  {
    Fits(s.limits.For(s.users[user].tier),
         s.books.balances[WalletOf(user)] + AmountWhere(s.txns, PendingInto(WalletOf(user), now - 24 * 3_600_000)),
         amount)
  }

  /** A local day is the day in Lagos, an hour ahead of UTC: it runs from 23:00 UTC for 24 hours. */
  lemma LocalDayRunsFrom23Utc(instant: int)
    ensures var start := StartOfDay(instant);
            && start <= instant < start + 24 * 3_600_000
            && (start + 3_600_000) % (24 * 3_600_000) == 0
            && forall other :: DayOf(other) == DayOf(instant) <==> start <= other < start + 24 * 3_600_000
  {
  }

  /** Counting from the first instant of a local day is counting that day and the later ones. */
  lemma DailyLimitReads(s: State, user: nat, amount: int, now: int)
    requires user < |s.users|
    ensures CheckDailyLimit(LimitOf(s, user), s.txns, WalletOf(user), amount, now).None? <==>
              MaySpend(s, user, amount, now)
  {
    SumIsAmount(DebitedSince(WalletOf(user), StartOfDay(now)), SpentFrom(WalletOf(user), DayOf(now)), s.txns);
  }

  lemma CapReads(s: State, user: nat, amount: int, now: int)
    requires user < |s.users| && WalletOf(user) < |s.books.balances|
    ensures var (balance, pending) := BalanceAndPending(s, user, now);
            EvaluateCap(LimitOf(s, user), balance, pending, amount).Allowed? <==> MayReceive(s, user, amount, now)
  {
    var since := now - 24 * 3_600_000;
    SumIsAmount(PendingFunding(WalletOf(user), since), PendingInto(WalletOf(user), since), s.txns);
  }

  lemma FoundAt(s: State, t: nat)
    requires WellFormed(s) && t < |s.txns|
    ensures Find(s.txns, s.txns[t].reference) == Some(t)
  {
    assert s.txns[Find(s.txns, s.txns[t].reference).value].reference == s.txns[t].reference;
  }

  /** One row takes a status. */
  function Marked(txns: seq<Transaction>, t: nat, status: Status): seq<Transaction>
    requires t < |txns|
  {
    txns[t := txns[t].(status := status)]
  }

  // ----- What a posting leaves -----

  /** Every balance moves by what is listed for its account, and the others stay. */
  ghost predicate Moves(before: Books, after: Books, moved: map<nat, int>) {
    && |after.balances| == |before.balances|
    && (forall a :: 0 <= a < |before.balances| ==>
          after.balances[a] == before.balances[a] + if a in moved then moved[a] else 0)
  }

  /** The entries of one transaction come after all others, each with the balance it left. */
  ghost predicate Writes(before: Books, after: Books, txn: nat, legs: seq<Leg>) {
    && |after.entries| == |before.entries| + |legs|
    && after.entries[..|before.entries|] == before.entries
    && (forall i :: 0 <= i < |legs| ==>
          && legs[i].account < |after.balances|
          && after.entries[|before.entries| + i] == Entry(txn, legs[i], after.balances[legs[i].account]))
  }

  ghost predicate Apart(legs: seq<Leg>) {
    forall i, j :: 0 <= i < j < |legs| ==> legs[i].account != legs[j].account
  }

  ghost predicate Lists(legs: seq<Leg>, moved: map<nat, int>) {
    && (forall i :: 0 <= i < |legs| ==>
          legs[i].account in moved && moved[legs[i].account] == CachedDelta(legs[i]))
    && (forall a :: a in moved && moved[a] != 0 ==> exists i :: 0 <= i < |legs| && legs[i].account == a)
  }

  lemma {:induction false} EachLegOnce(b: Books, txn: nat, legs: seq<Leg>)
    requires AccountsExist(b.balances, legs) && Apart(legs)
    ensures var r := Post(b, txn, legs);
            && Writes(b, r, txn, legs)
            && (forall i :: 0 <= i < |legs| ==>
                  r.balances[legs[i].account] == b.balances[legs[i].account] + CachedDelta(legs[i]))
  {
    if legs != [] {
      var n := |legs| - 1;
      EachLegOnce(b, txn, legs[..n]);
      PostFrame(b, txn, legs[..n], legs[n].account);
    }
  }

  lemma PostMoves(b: Books, txn: nat, legs: seq<Leg>, moved: map<nat, int>)
    requires AccountsExist(b.balances, legs) && Apart(legs) && Lists(legs, moved)
    ensures Moves(b, Post(b, txn, legs), moved) && Writes(b, Post(b, txn, legs), txn, legs)
  {
    EachLegOnce(b, txn, legs);
    forall a | 0 <= a < |b.balances|
      ensures Post(b, txn, legs).balances[a] == b.balances[a] + if a in moved then moved[a] else 0
    {
      if forall i :: 0 <= i < |legs| ==> legs[i].account != a {
        PostFrame(b, txn, legs, a);
      }
    }
  }
}
