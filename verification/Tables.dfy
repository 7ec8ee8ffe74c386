/**
 The tables the money movements read and write. One currency and one provider are active, so the
 five system accounts are fixed rows and every user owns exactly one wallet row after them. A row's
 position is its id; references between rows are positions.
 */
module Tables {
  datatype Option<+T> = None | Some(value: T)

  // The seeded system accounts; a wallet's row follows them.
  const FLOAT: nat := 0
  const SUSPENSE: nat := 1
  const FEE_INCOME: nat := 2
  const FEE_EXPENSE: nat := 3
  const FEE_RECOVERY: nat := 4
  const FIRST_WALLET: nat := 5

  function WalletOf(user: nat): nat { FIRST_WALLET + user }

  predicate IsWallet(account: nat) { FIRST_WALLET <= account }

  datatype Direction = Debit | Credit

  /** One side of a posting: which account, which direction, how much. */
  datatype Leg = Leg(account: nat, direction: Direction, amount: int)

  /** A row of `ledger_entries`: a posted leg with the balance it left behind. */
  datatype Entry = Entry(txn: nat, leg: Leg, running: int)

  /** The two copies of the money: the cached balances and the append-only entries. */
  datatype Books = Books(balances: seq<int>, entries: seq<Entry>)

  datatype Status = Pending | Completed | Failed | Reversed | Disputed | Held | Refunded

  datatype Visibility = Public | Private

  /**
   A row of `transactions`; the columns and the metadata each type uses. `checkedAt` is no column: it is the
   instant at which the daily limit was checked for the row, kept to say what the check ensures.
   */
  datatype Transaction =
    | Funding(reference: string, status: Status, amount: int, recipient: nat, gross: Option<int>, createdAt: int)
    | FundingRefund(reference: string, status: Status, amount: int, reverses: nat, attempt: nat, createdAt: int)
    | P2PTransfer(reference: string, status: Status, amount: int, sender: nat, recipient: nat,
                  platformFee: int, note: Option<string>, visibility: Visibility, createdAt: int, checkedAt: int)
    | Withdrawal(reference: string, status: Status, amount: int, sender: nat,
                 platformFee: int, providerFee: int, bankAccount: string, createdAt: int, checkedAt: int)
    | WithdrawalReversal(reference: string, status: Status, amount: int, reverses: nat, recipient: nat, createdAt: int)
    | Chargeback(reference: string, status: Status, amount: int, reverses: nat, sender: nat, createdAt: int)
    | ChargebackReversal(reference: string, status: Status, amount: int, reverses: nat, recipient: nat, createdAt: int)

  datatype DisputeStatus = Open | Upheld | Resolved

  datatype Dispute = Dispute(chargeback: nat, reference: string, status: DisputeStatus, amount: int)

  datatype Tier = Tier0 | Tier1 | Tier2 | Tier3

  datatype Identity = Identity(bvn: bool, nin: bool, liveness: bool)

  datatype User = User(tier: Tier, frozen: bool, identity: Identity)

  datatype RequestStatus = Outstanding | Paid | Cancelled | Declined

  datatype MoneyRequest = MoneyRequest(requester: nat, payer: nat, amount: int, note: Option<string>,
                                       status: RequestStatus, expiresAt: int, transactionId: Option<nat>)

  /** A missing balance cap means no cap. */
  datatype TierLimit = TierLimit(dailyDebit: int, balanceCap: Option<int>)

  datatype Limits = Limits(tier0: TierLimit, tier1: TierLimit, tier2: TierLimit, tier3: TierLimit)
  {
    function For(tier: Tier): TierLimit {
      match tier
      case Tier0 => tier0
      case Tier1 => tier1
      case Tier2 => tier2
      case Tier3 => tier3
    }
  }

  datatype State = State(
    books: Books,
    txns: seq<Transaction>,
    disputes: seq<Dispute>,
    users: seq<User>,
    requests: seq<MoneyRequest>,
    limits: Limits)

  datatype Error =
    | ReferenceTaken
    | ReferenceForeign
    | ReferenceDiverged
    | InsufficientFunds
    | AccountFrozen
    | PinRejected
    | PayoutFailed
    | SelfTransfer
    | UsersBlocked
    | KycRequired
    | DailyLimitExceeded
    | BalanceCapExceeded
    | RecipientCannotReceive
    | ChargebackAmountExceedsRemaining
    | DuplicateDisputeReference
    | DisputeNotFound
    | DisputeAlreadyResolved
    | DisputeAmountMismatch
    | RequestNotFound
    | RequestNotPayable

  /**
   How a database transaction ended: it acted on row `txn`, it found nothing to do, an earlier
   transaction with the same reference already is the answer, or it threw and rolled back.
   */
  datatype Outcome = Acted(txn: nat) | Nothing | Replayed(txn: nat) | Refused(error: Error)

  // ----- Reading single rows -----

  /** The unique index on `transactions.reference`. */
  function Find(txns: seq<Transaction>, reference: string): (t: Option<nat>)
    ensures t.Some? ==> t.value < |txns| && txns[t.value].reference == reference
    ensures t.None? ==> forall k :: 0 <= k < |txns| ==> txns[k].reference != reference
  {
    if txns == [] then None
    else if txns[|txns| - 1].reference == reference then Some(|txns| - 1)
    else Find(txns[..|txns| - 1], reference)
  }

  function FindDispute(disputes: seq<Dispute>, reference: string): (d: Option<nat>)
    ensures d.Some? ==> d.value < |disputes| && disputes[d.value].reference == reference
    ensures d.None? ==> forall k :: 0 <= k < |disputes| ==> disputes[k].reference != reference
  {
    if disputes == [] then None
    else if disputes[|disputes| - 1].reference == reference then Some(|disputes| - 1)
    else FindDispute(disputes[..|disputes| - 1], reference)
  }

  /** A funding that was credited to its wallet, whatever disputes have done to its status since. */
  predicate IsCredited(status: Status) { status in {Completed, Disputed, Reversed} }

  /** A funding whose money went to suspense, refunded since or not. */
  predicate WasHeld(status: Status) { status in {Held, Refunded} }
}
