/**
 Tier limits: the local day, the daily debit limit, the balance cap, and the tier a user's verified
 identities earn.
 */
module Kyc {
  import opened Tables
  import opened Sums

  const DAY_MS: int := 86_400_000
  const UTC_OFFSET_MS: int := 3_600_000 // Africa/Lagos, no daylight saving time
  const PENDING_FUNDING_WINDOW_MS: int := 24 * 3_600_000

  function DayOf(instant: int): int { (instant + UTC_OFFSET_MS) / DAY_MS }

  function StartOfDay(instant: int): int { DayOf(instant) * DAY_MS - UTC_OFFSET_MS }

  /** Principal debited from a wallet since an instant; fees and reversed withdrawals do not count. */
  function DebitedSince(wallet: nat, since: int): Transaction -> int {
    (t: Transaction) => if CountsAsDebit(t, wallet) && since <= t.createdAt then t.amount else 0
  }

  function DebitedOn(wallet: nat, day: int): Transaction -> int {
    (t: Transaction) => if CountsAsDebit(t, wallet) && DayOf(t.createdAt) == day then t.amount else 0
  }

  function InTimeOn(wallet: nat, day: int): Transaction -> int {
    (t: Transaction) =>
      if CountsAsDebit(t, wallet) && DayOf(t.createdAt) == day && DayOf(t.checkedAt) <= day then t.amount else 0
  }

  function LateOn(wallet: nat, day: int): Transaction -> int {
    (t: Transaction) =>
      if CountsAsDebit(t, wallet) && DayOf(t.createdAt) == day && day < DayOf(t.checkedAt) then t.amount else 0
  }

  predicate CountsAsDebit(t: Transaction, wallet: nat) {
    (t.P2PTransfer? || t.Withdrawal?) && t.sender == wallet && t.status in {Pending, Completed}
  }

  function PendingFunding(wallet: nat, since: int): Transaction -> int {
    (t: Transaction) => if t.Funding? && t.recipient == wallet && t.status == Pending
        && since <= t.createdAt then t.amount else 0
  }

  /** The refusal of a debit over the daily limit, if any. */
  function CheckDailyLimit(limit: TierLimit, txns: seq<Transaction>, wallet: nat, amount: int,
      now: int): Option<Error> {
    if limit.dailyDebit == 0 then Some(KycRequired)
    else if limit.dailyDebit < SumBy(DebitedSince(wallet, StartOfDay(now)), txns) + amount then Some(DailyLimitExceeded)
    else None
  }

  datatype Verdict = Allowed | ZeroCap | OverCap(cap: int, remaining: int)

  function EvaluateCap(limit: TierLimit, balance: int, pending: int, requested: int): Verdict {
    match limit.balanceCap
    case None => Allowed
    case Some(cap) =>
      var projected := balance + pending;
      if cap == 0 then ZeroCap
      else if cap < projected + requested then OverCap(cap, if projected < cap then cap - projected else 0)
      else Allowed
  }

  // ----- Tiers -----

  function TierRank(tier: Tier): nat {
    match tier
    case Tier0 => 0
    case Tier1 => 1
    case Tier2 => 2
    case Tier3 => 3
  }

  function DeriveTier(id: Identity): Tier {
    if id.bvn && id.nin && id.liveness then Tier3
    else if id.bvn && id.nin then Tier2
    else if id.bvn || id.nin then Tier1
    else Tier0
  }

  /** The stored tier moves only upwards. */
  function RaiseTier(current: Tier, id: Identity): Tier {
    if TierRank(current) < TierRank(DeriveTier(id)) then DeriveTier(id) else current
  }

  predicate CapAtMost(low: Option<int>, high: Option<int>) {
    high.None? || (low.Some? && low.value <= high.value)
  }

  /** A higher tier never has a lower limit; the seeded limits are such a table. */
  ghost predicate LimitsRise(limits: Limits) {
    forall a: Tier, b: Tier :: TierRank(a) <= TierRank(b) ==>
      limits.For(a).dailyDebit <= limits.For(b).dailyDebit && CapAtMost(limits.For(a).balanceCap,
          limits.For(b).balanceCap)
  }

  ghost predicate LimitsNonNegative(limits: Limits) {
    forall t: Tier :: 0 <= limits.For(t).dailyDebit && (limits.For(t).balanceCap.Some? ==>
        0 <= limits.For(t).balanceCap.value)
  }

  const SEEDED_LIMITS := Limits(
    TierLimit(0, Some(0)),
    TierLimit(5_000_000, Some(30_000_000)),
    TierLimit(20_000_000, Some(50_000_000)),
    TierLimit(500_000_000, None))

  /** The tier a user's verified identities earn. */
  predicate Earns(id: Identity, tier: Tier) {
    match tier
    case Tier3 => id.bvn && id.nin && id.liveness
    case Tier2 => id.bvn && id.nin && !id.liveness
    case Tier1 => id.bvn != id.nin
    case Tier0 => !id.bvn && !id.nin
  }

  /** Verifying one more identity never lowers the derived tier, so the stored tier always is the one earned. */
  lemma RaiseTierTracksDerivation(before: Identity, after: Identity)
    requires (before.bvn ==> after.bvn) && (before.nin ==> after.nin) && (before.liveness ==> after.liveness)
    ensures RaiseTier(DeriveTier(before), after) == DeriveTier(after)
    ensures forall stored :: Earns(before, stored) ==> Earns(after, RaiseTier(stored, after))
    ensures TierRank(DeriveTier(before)) <= TierRank(DeriveTier(after))
  {
  }

  /** Every debit stamped on the day of a check, or on a later one, lies after the start of day the check reads from. */
  lemma {:induction false} DayWithinSince(txns: seq<Transaction>, wallet: nat, now: int, day: int)
    requires DayOf(now) <= day && forall i :: 0 <= i < |txns| ==> 0 <= txns[i].amount
    ensures SumBy(DebitedOn(wallet, day), txns) <= SumBy(DebitedSince(wallet, StartOfDay(now)), txns)
  {
    if txns != [] {
      DayWithinSince(txns[..|txns| - 1], wallet, now, day);
    }
  }
}
