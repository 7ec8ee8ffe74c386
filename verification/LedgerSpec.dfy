/**
 What each database transaction does to the tables, as a function from the tables before to the
 tables after. A transaction that throws rolls back: it returns its tables unchanged.
 */
module LedgerSpec {
  import opened Tables
  import opened Sums
  import opened Postings
  import opened Kyc
  import Decimal

  // ----- Constraints the schema keeps -----

  predicate WalletExists(account: nat, accounts: nat) { IsWallet(account) && account < accounts }

  /** Foreign keys, the columns each type fills, and the statuses each type can carry. */
  predicate RowOk(txns: seq<Transaction>, accounts: nat, t: nat)
    requires t < |txns|
  {
    && 0 < txns[t].amount
    && match txns[t]
       case Funding(_, status, amount, recipient, gross, _) =>
         && WalletExists(recipient, accounts)
         && (gross.Some? ==> amount <= gross.value)
       case FundingRefund(_, status, amount, reverses, _, _) =>
         && status in {Pending, Completed, Failed}
         && reverses < t && txns[reverses].Funding? && txns[reverses].amount == amount
       case P2PTransfer(_, status, _, sender, recipient, fee, _, _, _, _) =>
         && status == Completed && 0 <= fee
         && WalletExists(sender, accounts) && WalletExists(recipient, accounts) && sender != recipient
       case Withdrawal(_, status, _, sender, platformFee, providerFee, _, _, _) =>
         && status in {Pending, Completed, Reversed} && 0 <= platformFee && 0 <= providerFee
         && WalletExists(sender, accounts)
       case WithdrawalReversal(_, status, amount, reverses, recipient, _) =>
         && status == Completed && WalletExists(recipient, accounts)
         && reverses < t && txns[reverses].Withdrawal? && txns[reverses].sender == recipient
         && txns[reverses].status == Reversed && txns[reverses].amount == amount
         && 0 <= txns[reverses].platformFee && 0 <= txns[reverses].providerFee
         && txns[t].reference == txns[reverses].reference + "-reversal"
       case Chargeback(_, status, _, reverses, sender, _) =>
         && status == Completed && WalletExists(sender, accounts)
         && reverses < t && txns[reverses].Funding? && txns[reverses].recipient == sender
       case ChargebackReversal(_, status, amount, reverses, recipient, _) =>
         && status == Completed && WalletExists(recipient, accounts)
         && reverses < t && txns[reverses].Chargeback? && txns[reverses].sender == recipient
             && txns[reverses].amount == amount
         && txns[t].reference == txns[reverses].reference + "-resolved"
  }

  ghost predicate RowsOk(txns: seq<Transaction>, accounts: nat) {
    forall t :: 0 <= t < |txns| ==> RowOk(txns, accounts, t)
  }

  ghost predicate UniqueReferences(txns: seq<Transaction>) {
    forall i, j :: 0 <= i < j < |txns| ==> txns[i].reference != txns[j].reference
  }

  ghost predicate WellFormed(s: State) {
    && |s.books.balances| == FIRST_WALLET + |s.users|
    && RowsOk(s.txns, |s.books.balances|)
    && UniqueReferences(s.txns)
    && (forall d :: 0 <= d < |s.disputes| ==>
          s.disputes[d].chargeback < |s.txns| && s.txns[s.disputes[d].chargeback].Chargeback?)
    && (forall r :: 0 <= r < |s.requests| ==>
          s.requests[r].requester < |s.users| && s.requests[r].payer < |s.users| && 0 < s.requests[r].amount)
  }

  lemma LegsExist(txns: seq<Transaction>, balances: seq<int>, t: nat)
    requires t < |txns| && FIRST_WALLET <= |balances| && RowOk(txns, |balances|, t)
    ensures AccountsExist(balances, LegsOf(txns, t))
  {
  }

  // ----- Building blocks -----

  function Inserted(s: State, row: Transaction): State { s.(txns := s.txns + [row]) }

  function WithStatus(row: Transaction, status: Status): Transaction { row.(status := status) }

  function Restatus(s: State, t: nat, status: Status): State
    requires t < |s.txns|
  {
    s.(txns := s.txns[t := WithStatus(s.txns[t], status)])
  }

  /** Posts the legs row `t` calls for. */
  function Posted(s: State, t: nat): State
    requires t < |s.txns| && FIRST_WALLET <= |s.books.balances| && RowOk(s.txns, |s.books.balances|, t)
  {
    LegsExist(s.txns, s.books.balances, t);
    s.(books := Post(s.books, t, LegsOf(s.txns, t)))
  }

  /** Rewriting rows in place neither frees nor takes a reference. */
  lemma SameReferences(before: seq<Transaction>, after: seq<Transaction>, reference: string)
    requires |before| == |after| && forall t :: 0 <= t < |before| ==> before[t].reference == after[t].reference
    ensures Find(before, reference).Some? == Find(after, reference).Some?
  {
  }

  predicate Taken(s: State, reference: string) { Find(s.txns, reference).Some? }

  function LimitOf(s: State, user: nat): TierLimit
    requires user < |s.users|
  {
    s.limits.For(s.users[user].tier)
  }

  function OwnerOf(wallet: nat): nat
    requires IsWallet(wallet)
  {
    wallet - FIRST_WALLET
  }

  // ----- Registration and identity -----

  function Register(s: State): State {
    s.(users := s.users + [User(Tier0, false, Identity(false, false, false))],
       books := s.books.(balances := s.books.balances + [0]))
  }

  datatype Proof = BvnProof | NinProof | LivenessProof

  function WithProof(id: Identity, proof: Proof): Identity {
    match proof
    case BvnProof => id.(bvn := true)
    case NinProof => id.(nin := true)
    case LivenessProof => id.(liveness := true)
  }

  function VerifyIdentity(s: State, user: nat, proof: Proof): State
    requires user < |s.users|
  {
    var id := WithProof(s.users[user].identity, proof);
    s.(users := s.users[user := s.users[user].(identity := id, tier := RaiseTier(s.users[user].tier, id))])
  }

  // ----- Fundings -----

  function BalanceAndPending(s: State, user: nat, now: int): (int, int)
    requires WalletOf(user) < |s.books.balances|
  {
    (s.books.balances[WalletOf(user)], SumBy(PendingFunding(WalletOf(user), now - PENDING_FUNDING_WINDOW_MS), s.txns))
  }

  function FundingRow(user: nat, reference: string, amount: int, now: int): Transaction {
    Funding(reference, Pending, amount, WalletOf(user), None, now)
  }

  function InitiateFunding(s: State, user: nat, reference: string, amount: int, now: int): (State, Outcome)
    requires WellFormed(s) && user < |s.users|
  {
    var (balance, pending) := BalanceAndPending(s, user, now);
    match EvaluateCap(LimitOf(s, user), balance, pending, amount)
    case ZeroCap => (s, Refused(KycRequired))
    case OverCap(_, _) => (s, Refused(BalanceCapExceeded))
    case Allowed =>
      if Taken(s, reference) then (s, Refused(ReferenceTaken))
      else (Inserted(s, FundingRow(user, reference, amount, now)), Acted(|s.txns|))
  }

  /** An unguarded update: whatever row carries the reference becomes failed. */
  function MarkFundingFailed(s: State, reference: string): State {
    var found := Find(s.txns, reference);
    if found.Some? then Restatus(s, found.value, Failed) else s
  }

  datatype Source = Webhook | Poll

  /** A provider's report of a funding's outcome. */
  datatype FundingReport = FundingReport(reference: string, amount: int, fee: int, success: bool, source: Source)

  /** A webhook may report the payer's gross; anything but the requested amount is read that way. */
  function NetReported(report: FundingReport, requested: int): int {
    if report.source.Webhook? && report.amount != requested then report.amount - report.fee else report.amount
  }

  function RefundReference(funding: nat, attempt: nat): string {
    "rfd-" + Decimal.Print(funding) + "-" + Decimal.Print(attempt)
  }

  function RefundAttempt(s: State, funding: nat, attempt: nat, now: int): Transaction
    requires funding < |s.txns|
  {
    FundingRefund(RefundReference(funding, attempt), Pending, s.txns[funding].amount, funding, attempt, now)
  }

  /** A claimed funding row: its next status and, once money arrived, the gross the customer paid. */
  function Claimed(s: State, t: nat, status: Status, fee: int): State
    requires t < |s.txns| && s.txns[t].Funding?
  {
    s.(txns := s.txns[t := s.txns[t].(status := status, gross := Some(s.txns[t].amount + fee))])
  }

  function FundingCredited(s: State, t: nat, fee: int): State
    requires WellFormed(s) && t < |s.txns| && s.txns[t].Funding? && 0 <= fee
  {
    assert RowOk(s.txns, |s.books.balances|, t);
    Posted(Claimed(s, t, Completed, fee), t)
  }

  /** The money goes to suspense, and the first refund attempt exists before the provider is called. */
  function FundingHeld(s: State, t: nat, fee: int, now: int): State
    requires WellFormed(s) && t < |s.txns| && s.txns[t].Funding? && 0 <= fee
  {
    assert RowOk(s.txns, |s.books.balances|, t);
    Inserted(Posted(Claimed(s, t, Held, fee), t), RefundAttempt(s, t, 1, now))
  }

  function ReportFunding(s: State, report: FundingReport, now: int): (State, Outcome)
    requires WellFormed(s) && 0 <= report.fee
  {
    var found := Find(s.txns, report.reference);
    if found.None? || !s.txns[found.value].Funding? || s.txns[found.value].status != Pending then (s, Nothing)
    else
      var t := found.value;
      var row := s.txns[t];
      assert RowOk(s.txns, |s.books.balances|, t);
      var net := NetReported(report, row.amount);
      if !report.success || net != row.amount then (Restatus(s, t, Failed), Nothing)
      else if EvaluateCap(LimitOf(s, OwnerOf(row.recipient)), s.books.balances[row.recipient], 0, net).Allowed? then
        (FundingCredited(s, t, report.fee), Acted(t))
      else if Taken(s, RefundReference(t, 1)) then (s, Refused(ReferenceTaken))
      else (FundingHeld(s, t, report.fee, now), Acted(t))
  }

  // ----- Refunds of held fundings -----

  function IsAttempt(funding: nat): Transaction -> int {
    (t: Transaction) => if t.FundingRefund? && t.reverses == funding then 1 else 0
  }

  function IsAttemptIn(funding: nat, status: Status): Transaction -> int {
    (t: Transaction) => if t.FundingRefund? && t.reverses == funding && t.status == status then 1 else 0
  }

  function StartRefundAttempt(s: State, funding: nat, now: int): (State, Outcome)
    requires WellFormed(s)
  {
    if |s.txns| <= funding || !s.txns[funding].Funding? || s.txns[funding].status != Held then (s, Nothing)
    else if exists a :: 0 <= a < |s.txns| && IsAttemptIn(funding, Pending)(s.txns[a]) == 1 then (s, Nothing)
    else
      var attempts := SumBy(IsAttempt(funding), s.txns);
      SumNonNegative(IsAttempt(funding), s.txns);
      if Taken(s, RefundReference(funding, attempts + 1)) then (s, Refused(ReferenceTaken))
      else (Inserted(s, RefundAttempt(s, funding, attempts + 1, now)), Acted(|s.txns|))
  }

  /** Every other pending attempt of a funding fails once one has settled. */
  function Supersede(txns: seq<Transaction>, funding: nat): (r: seq<Transaction>)
    ensures |r| == |txns|
    ensures forall a :: 0 <= a < |txns| ==>
      r[a] == if IsAttemptIn(funding, Pending)(txns[a]) == 1 then WithStatus(txns[a], Failed) else txns[a]
  {
    seq(|txns|, a requires 0 <= a < |txns| =>
      if IsAttemptIn(funding, Pending)(txns[a]) == 1 then WithStatus(txns[a], Failed) else txns[a])
  }

  /** The rows after attempt `a` of `funding` settled. */
  function Settled(txns: seq<Transaction>, a: nat, funding: nat): seq<Transaction>
    requires a < |txns| && funding < |txns|
  {
    var claimed := txns[a := WithStatus(txns[a], Completed)];
    Supersede(claimed[funding := WithStatus(claimed[funding], Refunded)], funding)
  }

  function RefundSettled(s: State, a: nat): State
    requires WellFormed(s) && a < |s.txns| && s.txns[a].FundingRefund?
  {
    assert RowOk(s.txns, |s.books.balances|, a);
    Posted(s.(txns := Settled(s.txns, a, s.txns[a].reverses)), a)
  }

  function SettleRefund(s: State, reference: string, reported: int): (State, Outcome)
    requires WellFormed(s)
  {
    var found := Find(s.txns, reference);
    if found.None? || !s.txns[found.value].FundingRefund? then (s, Nothing)
    else
      var a := found.value;
      assert RowOk(s.txns, |s.books.balances|, a);
      var funding := s.txns[a].reverses;
      if reported != s.txns[a].amount || s.txns[funding].status != Held
          || s.txns[a].status !in {Pending, Failed} then (s, Nothing)
      else (RefundSettled(s, a), Acted(a))
  }

  function FailRefund(s: State, reference: string): (State, Outcome) {
    var found := Find(s.txns, reference);
    if found.None? || !s.txns[found.value].FundingRefund? || s.txns[found.value].status != Pending then (s, Nothing)
    else (Restatus(s, found.value, Failed), Acted(found.value))
  }

  /** The condition under which a success report that settled nothing raises an alert. */
  predicate LateSuccessAlert(s: State, reference: string)
    requires WellFormed(s)
  {
    var found := Find(s.txns, reference);
    found.Some? && s.txns[found.value].FundingRefund?
    && (assert RowOk(s.txns, |s.books.balances|, found.value);
        s.txns[s.txns[found.value].reverses].status == Refunded && s.txns[found.value].status != Completed)
  }

  // ----- Transfers -----

  datatype TransferOrder = TransferOrder(reference: string, sender: nat, recipient: nat, amount: int,
                                         fee: int, note: Option<string>, visibility: Visibility)

  /**
   What was read before the posting transaction opened, or through another module inside it; the instant
   the row is stamped with, at which the transaction began, and the instant its checks read the clock.
   */
  datatype Context = Context(sawFrozen: bool, pinRejected: bool, blocked: bool, stamp: int, now: int)

  /** The refusal decided before the posting transaction opens, if any. */
  function TurnedAway(c: Context): Option<Error> {
    if c.sawFrozen then Some(AccountFrozen) else if c.pinRejected then Some(PinRejected) else None
  }

  ghost predicate OrderOk(s: State, o: TransferOrder) {
    o.sender < |s.users| && o.recipient < |s.users| && 0 < o.amount && 0 <= o.fee
  }

  function TransferRow(o: TransferOrder, c: Context): Transaction {
    P2PTransfer(o.reference, Completed, o.amount, WalletOf(o.sender), WalletOf(o.recipient), o.fee, o.note,
        o.visibility, c.stamp, c.now)
  }

  function TransferPosted(s: State, o: TransferOrder, c: Context): State
    requires WellFormed(s) && OrderOk(s, o) && o.sender != o.recipient
  {
    Posted(Inserted(s, TransferRow(o, c)), |s.txns|)
  }

  function Transfer(s: State, o: TransferOrder, c: Context): (State, Outcome)
    requires WellFormed(s) && OrderOk(s, o)
  {
    if o.sender == o.recipient then (s, Refused(SelfTransfer))
    else if TurnedAway(c).Some? then (s, Refused(TurnedAway(c).value))
    else if c.blocked then (s, Refused(UsersBlocked))
    else
      var overLimit := CheckDailyLimit(LimitOf(s, o.sender), s.txns, WalletOf(o.sender), o.amount, c.now);
      var (balance, pending) := BalanceAndPending(s, o.recipient, c.now);
      if overLimit.Some? then (s, Refused(overLimit.value))
      else if !EvaluateCap(LimitOf(s, o.recipient), balance, pending, o.amount).Allowed? then (s,
          Refused(RecipientCannotReceive))
      else if s.books.balances[WalletOf(o.sender)] < o.amount + o.fee then (s, Refused(InsufficientFunds))
      else if Taken(s, o.reference) then (s, Refused(ReferenceTaken))
      else (TransferPosted(s, o, c), Acted(|s.txns|))
  }

  // ----- Idempotent replays -----

  datatype Replay = Fresh | Match(txn: nat) | Rejected(error: Error)

  /** The wallets a row names; a row is its caller's own if one of them is. */
  function Participants(row: Transaction): set<nat> {
    match row
    case Funding(_, _, _, recipient, _, _) => {recipient}
    case FundingRefund(_, _, _, _, _, _) => {}
    case P2PTransfer(_, _, _, sender, recipient, _, _, _, _, _) => {sender, recipient}
    case Withdrawal(_, _, _, sender, _, _, _, _, _) => {sender}
    case WithdrawalReversal(_, _, _, _, recipient, _) => {recipient}
    case Chargeback(_, _, _, _, sender, _) => {sender}
    case ChargebackReversal(_, _, _, _, recipient, _) => {recipient}
  }

  function CheckTransferReplay(s: State, o: TransferOrder): Replay {
    var found := Find(s.txns, o.reference);
    if found.None? then Fresh
    else
      var row := s.txns[found.value];
      if WalletOf(o.sender) !in Participants(row) then Rejected(ReferenceForeign)
      else if !row.P2PTransfer? || row.amount != o.amount
          || row.recipient != WalletOf(o.recipient) then Rejected(ReferenceDiverged)
      else if row.note != o.note || row.visibility != o.visibility then Rejected(ReferenceDiverged)
      else Match(found.value)
  }

  // ----- Withdrawals -----

  datatype WithdrawalOrder = WithdrawalOrder(reference: string, user: nat, amount: int,
                                             platformFee: int, providerFee: int, bankAccount: string)

  ghost predicate WithdrawalOrderOk(s: State, o: WithdrawalOrder) {
    o.user < |s.users| && 0 < o.amount && 0 <= o.platformFee && 0 <= o.providerFee
  }

  function WithdrawalRow(o: WithdrawalOrder, c: Context): Transaction {
    Withdrawal(o.reference, Pending, o.amount, WalletOf(o.user), o.platformFee, o.providerFee, o.bankAccount, c.stamp,
        c.now)
  }

  function WithdrawalPosted(s: State, o: WithdrawalOrder, c: Context): State
    requires WellFormed(s) && WithdrawalOrderOk(s, o)
  {
    Posted(Inserted(s, WithdrawalRow(o, c)), |s.txns|)
  }

  function Withdraw(s: State, o: WithdrawalOrder, c: Context): (State, Outcome)
    requires WellFormed(s) && WithdrawalOrderOk(s, o)
  {
    var overLimit := CheckDailyLimit(LimitOf(s, o.user), s.txns, WalletOf(o.user), o.amount, c.now);
    if TurnedAway(c).Some? then (s, Refused(TurnedAway(c).value))
    else if overLimit.Some? then (s, Refused(overLimit.value))
    else if s.books.balances[WalletOf(o.user)] < o.amount + o.platformFee
        + o.providerFee then (s, Refused(InsufficientFunds))
    else if Taken(s, o.reference) then (s, Refused(ReferenceTaken))
    else (WithdrawalPosted(s, o, c), Acted(|s.txns|))
  }

  function ReversalRow(s: State, t: nat, now: int): Transaction
    requires t < |s.txns| && s.txns[t].Withdrawal?
  {
    WithdrawalReversal(s.txns[t].reference + "-reversal", Completed, s.txns[t].amount, t, s.txns[t].sender, now)
  }

  function WithdrawalReversed(s: State, t: nat, now: int): State
    requires WellFormed(s) && t < |s.txns| && s.txns[t].Withdrawal?
  {
    assert RowOk(s.txns, |s.books.balances|, t);
    Posted(Inserted(Restatus(s, t, Reversed), ReversalRow(s, t, now)), |s.txns|)
  }

  function ReverseWithdrawal(s: State, reference: string, now: int): (State, Outcome)
    requires WellFormed(s)
  {
    var found := Find(s.txns, reference);
    if found.None? || !s.txns[found.value].Withdrawal? || s.txns[found.value].status != Pending then (s, Nothing)
    else
      var t := found.value;
      if Taken(s, reference + "-reversal") then (s, Refused(ReferenceTaken))
      else (WithdrawalReversed(s, t, now), Acted(|s.txns|))
  }

  function CompleteWithdrawal(s: State, reference: string, reported: int): (State, Outcome) {
    var found := Find(s.txns, reference);
    if found.None? || !s.txns[found.value].Withdrawal? || s.txns[found.value].amount != reported
        || s.txns[found.value].status != Pending
    then (s, Nothing)
    else (Restatus(s, found.value, Completed), Acted(found.value))
  }

  // ----- Chargebacks and disputes -----

  function ChargedAgainst(original: nat): Transaction -> int {
    (t: Transaction) => if t.Chargeback? && t.reverses == original && t.status == Completed then t.amount else 0
  }

  function ChargebackRow(s: State, original: nat, reference: string, amount: int, now: int): Transaction
    requires original < |s.txns| && s.txns[original].Funding?
  {
    Chargeback(reference, Completed, amount, original, s.txns[original].recipient, now)
  }

  function Frozen(s: State, user: nat, frozen: bool): State
    requires user < |s.users|
  {
    s.(users := s.users[user := s.users[user].(frozen := frozen)])
  }

  function ChargebackPosted(s: State, original: nat, reference: string, amount: int, now: int): State
    requires WellFormed(s) && original < |s.txns| && s.txns[original].Funding? && 0 < amount
  {
    assert RowOk(s.txns, |s.books.balances|, original);
    var t := |s.txns|;
    var wallet := s.txns[original].recipient;
    var posted := Restatus(Posted(Inserted(s, ChargebackRow(s, original, reference, amount, now)), t), original,
        Disputed);
    var settled := if posted.books.balances[wallet] < 0 then Frozen(posted, OwnerOf(wallet), true) else posted;
    settled.(disputes := s.disputes + [Dispute(t, reference, Open, amount)])
  }

  /** The original's row and status were looked up earlier; only the amount cap is decided here. */
  function RecordChargeback(s: State, original: nat, reference: string, amount: int, now: int): (State, Outcome)
    requires WellFormed(s) && original < |s.txns| && s.txns[original].Funding? && 0 < amount
  {
    if s.txns[original].amount - SumBy(ChargedAgainst(original), s.txns) < amount then (s,
        Refused(ChargebackAmountExceedsRemaining))
    else if Taken(s, reference) || FindDispute(s.disputes, reference).Some? then (s, Refused(DuplicateDisputeReference))
    else (ChargebackPosted(s, original, reference, amount, now), Acted(|s.txns|))
  }

  predicate Against(txns: seq<Transaction>, d: Dispute, original: nat) {
    d.chargeback < |txns| && txns[d.chargeback].Chargeback? && txns[d.chargeback].reverses == original
  }

  predicate SomeDispute(txns: seq<Transaction>, disputes: seq<Dispute>, original: nat, status: DisputeStatus) {
    exists d :: 0 <= d < |disputes| && Against(txns, disputes[d], original) && disputes[d].status == status
  }

  /** An open dispute wins; otherwise an upheld one; otherwise the original is whole again. */
  function AggregateStatus(txns: seq<Transaction>, disputes: seq<Dispute>, original: nat): Status {
    if SomeDispute(txns, disputes, original, Open) then Disputed
    else if SomeDispute(txns, disputes, original, Upheld) then Reversed
    else Completed
  }

  predicate OpenOnWallet(txns: seq<Transaction>, disputes: seq<Dispute>, wallet: nat) {
    exists d :: 0 <= d < |disputes| && disputes[d].status == Open && disputes[d].chargeback < |txns|
      && txns[disputes[d].chargeback].Chargeback? && txns[disputes[d].chargeback].sender == wallet
  }

  function WithDispute(s: State, d: nat, status: DisputeStatus): State
    requires d < |s.disputes|
  {
    s.(disputes := s.disputes[d := s.disputes[d].(status := status)])
  }

  function Recomputed(s: State, original: nat): State
    requires original < |s.txns|
  {
    Restatus(s, original, AggregateStatus(s.txns, s.disputes, original))
  }

  function DisputeUpheld(s: State, d: nat): State
    requires WellFormed(s) && d < |s.disputes|
  {
    assert RowOk(s.txns, |s.books.balances|, s.disputes[d].chargeback);
    Recomputed(WithDispute(s, d, Upheld), s.txns[s.disputes[d].chargeback].reverses)
  }

  function ResolutionRow(s: State, chargeback: nat, now: int): Transaction
    requires chargeback < |s.txns| && s.txns[chargeback].Chargeback?
  {
    var c := s.txns[chargeback];
    ChargebackReversal(c.reference + "-resolved", Completed, c.amount, chargeback, c.sender, now)
  }

  function DisputeFavored(s: State, d: nat, now: int): State
    requires WellFormed(s) && d < |s.disputes|
  {
    var c := s.disputes[d].chargeback;
    assert RowOk(s.txns, |s.books.balances|, c);
    var wallet := s.txns[c].sender;
    var posted := Posted(Inserted(s, ResolutionRow(s, c, now)), |s.txns|);
    var recomputed := Recomputed(WithDispute(posted, d, Resolved), s.txns[c].reverses);
    if 0 <= recomputed.books.balances[wallet] && !OpenOnWallet(recomputed.txns, recomputed.disputes, wallet)
    then Frozen(recomputed, OwnerOf(wallet), false) else recomputed
  }

  function ResolveInFavor(s: State, d: nat, now: int): (State, Outcome)
    requires WellFormed(s) && d < |s.disputes| && s.disputes[d].amount == s.txns[s.disputes[d].chargeback].amount
  {
    var c := s.disputes[d].chargeback;
    if Taken(s, s.txns[c].reference + "-resolved") then (s, Refused(ReferenceTaken))
    else (DisputeFavored(s, d, now), Acted(|s.txns|))
  }

  datatype Ruling = Upholds | Favors(amount: int)

  function ResolveDispute(s: State, reference: string, ruling: Ruling, now: int): (State, Outcome)
    requires WellFormed(s) && DisputesMatchRows(s.txns, s.disputes)
  {
    var found := FindDispute(s.disputes, reference);
    if found.None? then (s, Refused(DisputeNotFound))
    else
      var d := found.value;
      if s.disputes[d].status != Open then (s, Refused(DisputeAlreadyResolved))
      else
        match ruling
        case Upholds => (DisputeUpheld(s, d), Acted(s.disputes[d].chargeback))
        case Favors(amount) =>
          if amount != s.disputes[d].amount then (s, Refused(DisputeAmountMismatch)) else ResolveInFavor(s, d, now)
  }

  /** Each dispute row copies the amount and the reference of the chargeback it was written with. */
  ghost predicate DisputesMatchRows(txns: seq<Transaction>, disputes: seq<Dispute>) {
    forall d :: 0 <= d < |disputes| ==>
      && disputes[d].chargeback < |txns| && txns[disputes[d].chargeback].Chargeback?
      && disputes[d].amount == txns[disputes[d].chargeback].amount
      && disputes[d].reference == txns[disputes[d].chargeback].reference
  }

  // ----- Money requests -----

  function CreateRequest(s: State, requester: nat, payer: nat, amount: int, note: Option<string>, expiresAt: int,
      allowed: bool): (State, Outcome) {
    if requester == payer then (s, Refused(SelfTransfer))
    else if !allowed then (s, Refused(RecipientCannotReceive))
    else (s.(requests := s.requests + [MoneyRequest(requester, payer, amount, note, Outstanding, expiresAt, None)]),
        Nothing)
  }

  predicate EffectivelyPending(r: MoneyRequest, now: int) { r.status == Outstanding && now < r.expiresAt }

  function CloseRequest(s: State, r: nat, actor: nat, status: RequestStatus, now: int): (State, Outcome)
    requires status in {Cancelled, Declined}
  {
    if |s.requests| <= r || !EffectivelyPending(s.requests[r], now) then (s, Refused(RequestNotFound))
    else if actor != (if status == Cancelled then s.requests[r].requester else s.requests[r].payer) then (s,
        Refused(RequestNotFound))
    else (s.(requests := s.requests[r := s.requests[r].(status := status)]), Nothing)
  }

  function OrderFor(q: MoneyRequest, reference: string, fee: int, visibility: Visibility): TransferOrder {
    TransferOrder(reference, q.payer, q.requester, q.amount, fee, if q.note
        == Some("") then None else q.note, visibility)
  }

  function PayRequest(s: State, r: nat, payer: nat, reference: string, fee: int, visibility: Visibility,
      c: Context): (State, Outcome)
    requires WellFormed(s) && 0 <= fee
  {
    if |s.requests| <= r || s.requests[r].payer != payer then (s, Refused(RequestNotFound))
    else
      var q := s.requests[r];
      var o := OrderFor(q, reference, fee, visibility);
      if o.sender == o.recipient then (s, Refused(SelfTransfer))
      else
        match CheckTransferReplay(s, o)
        case Match(t) => (s, if q.transactionId == Some(t) then Replayed(t) else Refused(ReferenceForeign))
        case Rejected(error) => (s, Refused(error))
        case Fresh =>
          if !EffectivelyPending(q, c.now) then (s, Refused(RequestNotPayable))
          else
            var (posted, outcome) := Transfer(s, o, c);
            if outcome.Acted?
            then (posted.(requests := s.requests[r := q.(status := Paid, transactionId := Some(outcome.txn))]), outcome)
            else (s, outcome)
  }
}
