/**
 What a client is answered when a request spans several database transactions, with any other
 transactions committed between them.
 */
module ClientFlows {
  import opened Tables
  import opened Sums
  import opened Postings
  import opened LedgerSpec
  import opened Evolution
  import opened Accounting
  import opened Refunds
  import opened Reversals
  import opened DisputeRules
  import opened WalletRules
  import opened RequestRules
  import opened Runs
  import opened Guarantees

  // ----- Sending money -----

  ghost function Answered(s: State, o: TransferOrder, otherwise: Outcome): Outcome {
    match CheckTransferReplay(s, o)
    case Match(t) => Replayed(t)
    case Rejected(error) => Refused(error)
    case Fresh => otherwise
  }

  /**
   Post; after any failure inside the transaction look for a twin that committed first, even one that used up
   the limit.
   */
  ghost function PostTransfer(s: State, o: TransferOrder, c: Context, after: seq<Op>): (State, Outcome)
    requires Inv(s) && OrderOk(s, o)
  {
    TransfersKeeps(s, o, c);
    var (posted, outcome) := Transfer(s, o, c);
    if outcome.Acted? then (posted, outcome)
    else (Run(posted, after), Answered(Run(posted, after), o, outcome))
  }

  /**
   Look for an earlier result; turn a frozen sender or a wrong PIN away, without looking again; then post.
   `between` and `after` is what others commit meanwhile.
   */
  ghost function ExecuteTransfer(s: State, o: TransferOrder, c: Context, between: seq<Op>, after: seq<Op>): (State,
      Outcome)
    requires Inv(s) && OrderOk(s, o)
  {
    if o.sender == o.recipient then (s, Refused(SelfTransfer))
    else if !CheckTransferReplay(s, o).Fresh? then (s, Answered(s, o, Nothing))
    else if TurnedAway(c).Some? then (Run(s, between), Refused(TurnedAway(c).value))
    else
      RunKeeps(s, between);
      PostTransfer(Run(s, between), o, c, after)
  }

  ghost predicate HasTransfer(s: State, o: TransferOrder) {
    exists t :: 0 <= t < |s.txns| && SameTransfer(s.txns[t], o)
  }

  /** The row an answer names carries the request, and no other row carries its reference. */
  ghost predicate NamesTheOnlyTransfer(s: State, o: TransferOrder, t: nat) {
    && t < |s.txns| && SameTransfer(s.txns[t], o)
    && (forall u :: 0 <= u < |s.txns| && s.txns[u].reference == o.reference ==> u == t)
  }

  lemma MatchNamesTheOnlyTransfer(s: State, o: TransferOrder)
    requires Inv(s) && o.sender != o.recipient
    ensures CheckTransferReplay(s, o).Match? <==> HasTransfer(s, o)
    ensures CheckTransferReplay(s, o).Match? ==> NamesTheOnlyTransfer(s, o, CheckTransferReplay(s, o).txn)
  {
    ReplayMatchesOnlyTheSameTransfer(s, o);
    var replay := CheckTransferReplay(s, o);
    if replay.Match? {
      assert RowOk(s.txns, |s.books.balances|, replay.txn);
    }
  }

  lemma PostingNamesTheOnlyTransfer(s: State, o: TransferOrder, c: Context)
    requires Inv(s) && OrderOk(s, o)
    requires Transfer(s, o, c).1.Acted?
    ensures var (r, outcome) := Transfer(s, o, c); Keeps(s, r) && NamesTheOnlyTransfer(r, o, outcome.txn)
  {
    hide AccountingOk, ReversalsOk;
    TransfersKeeps(s, o, c);
    var r := Transfer(s, o, c).0;
    assert r.txns == s.txns + [TransferRow(o, c)];
  }

  lemma PostedIffSuccess(s: State, o: TransferOrder, c: Context, after: seq<Op>)
    requires Inv(s) && OrderOk(s, o) && o.sender != o.recipient
    ensures var (r, outcome) := PostTransfer(s, o, c, after); Keeps(s, r) && AnswerIsRight(r, o, outcome)
  {
    hide AccountingOk, ReversalsOk;
    TransfersKeeps(s, o, c);
    var (posted, outcome) := Transfer(s, o, c);
    if outcome.Acted? {
      PostingNamesTheOnlyTransfer(s, o, c);
    } else {
      var later := Run(posted, after);
      RunKeeps(posted, after);
      EvolvesTransitive(s, posted, later);
      MatchNamesTheOnlyTransfer(later, o);
    }
  }

  /** Success is answered exactly when the transfer is posted, and the answer names the only row with its reference. */
  ghost predicate AnswerIsRight(r: State, o: TransferOrder, outcome: Outcome) {
    && (outcome.Acted? || outcome.Replayed? <==> HasTransfer(r, o))
    && (outcome.Acted? || outcome.Replayed? ==> NamesTheOnlyTransfer(r, o, outcome.txn))
  }

  /** A twin committed after the first look, and the sender was turned away before the second could be made. */
  ghost predicate TurnedAwayFromItsTwin(s: State, o: TransferOrder, c: Context, between: seq<Op>) {
    TurnedAway(c).Some? && CheckTransferReplay(s, o).Fresh? && HasTransfer(Run(s, between), o)
  }

  /**
   The client is told of success exactly when its transfer is posted, whatever was committed in between and
   whatever its own attempt failed on, and the answer names the only row with its reference; unless a frozen
   sender or a wrong PIN is turned away while a twin that was posted goes unseen.
   */
  lemma AnswerRightUnlessTurnedAwayFromTwin(s: State, o: TransferOrder, c: Context, between: seq<Op>, after: seq<Op>)
    requires Inv(s) && OrderOk(s, o) && o.sender != o.recipient
    ensures var (r, outcome) := ExecuteTransfer(s, o, c, between, after);
            Keeps(s, r) && (AnswerIsRight(r, o, outcome) <==> !TurnedAwayFromItsTwin(s, o, c, between))
  {
    hide AccountingOk, ReversalsOk;
    if !CheckTransferReplay(s, o).Fresh? {
      UnchangedKeeps(s);
      MatchNamesTheOnlyTransfer(s, o);
    } else {
      var begun := Run(s, between);
      RunKeeps(s, between);
      if TurnedAway(c).None? {
        PostedIffSuccess(begun, o, c, after);
        EvolvesTransitive(s, begun, PostTransfer(begun, o, c, after).0);
      }
    }
  }

  lemma ActedIsNoSelfTransfer(s: State, o: TransferOrder, c: Context)
    requires WellFormed(s) && OrderOk(s, o) && Transfer(s, o, c).1.Acted?
    ensures o.sender != o.recipient
  {
  }

  /** The failing input: the twin read its sender before the freeze and posts, and this request reads it after. */
  lemma FrozenTwinIsToldItFailed(s: State, o: TransferOrder, twin: Context, c: Context)
    requires Inv(s) && OrderOk(s, o) && Transfer(s, o, twin).1.Acted?
    requires CheckTransferReplay(s, o).Fresh? && c.sawFrozen
    ensures var (r, outcome) := ExecuteTransfer(s, o, c, [Transfers(o, twin)], []);
            outcome == Refused(AccountFrozen) && HasTransfer(r, o) && !AnswerIsRight(r, o, outcome)
  {
    hide UsersOk, RefundsOk, ReversalsOk, AccountingOk, RequestsOk, Transfer, CheckTransferReplay;
    PostingNamesTheOnlyTransfer(s, o, twin);
    ActedIsNoSelfTransfer(s, o, twin);
    RunOfOne(s, Transfers(o, twin));
    assert HasTransfer(Transfer(s, o, twin).0, o);
  }

  // ----- Paying a request -----

  /** The request is paid, by the transfer that carries this payment. */
  ghost predicate PaidWith(s: State, r: nat, o: TransferOrder) {
    && r < |s.requests| && s.requests[r].status == Paid && s.requests[r].transactionId.Some?
    && var t := s.requests[r].transactionId.value; t < |s.txns| && SameTransfer(s.txns[t], o)
  }

  /**
   A payer is told of success exactly when the request is paid with the transfer of this payment; the lookup,
   the payment and the request's row are one transaction, so nothing comes in between.
   */
  lemma PaymentAnswerIsRight(s: State, r: nat, reference: string, fee: int, visibility: Visibility, c: Context)
    requires Inv(s) && 0 <= fee && r < |s.requests|
    ensures var o := OrderFor(s.requests[r], reference, fee, visibility);
            var (t, outcome) := PayRequest(s, r, s.requests[r].payer, reference, fee, visibility, c);
            && Keeps(s, t)
            && (outcome.Acted? || outcome.Replayed? <==> PaidWith(t, r, o))
            && (PaidWith(t, r, o) ==> t.requests[r].transactionId == Some(outcome.txn))
  {
    hide UsersOk, DisputesOk, RefundsOk, ReversalsOk, AccountingOk;
    var q := s.requests[r];
    var o := OrderFor(q, reference, fee, visibility);
    PaysRequestKeeps(s, r, q.payer, reference, fee, visibility, c);
    if PaidWith(s, r, o) {
      var t := q.transactionId.value;
      assert RowOk(s.txns, |s.books.balances|, t);
      PostedRowMatches(s, o, t);
    }
    if o.sender != o.recipient {
      MatchNamesTheOnlyTransfer(s, o);
    }
  }

  // ----- Withdrawing -----

  datatype WithdrawalReplay = NotSeen | Pays(txn: nat) | AlreadyRejected | Conflicts(error: Error)

  function CheckWithdrawalReplay(s: State, o: WithdrawalOrder): WithdrawalReplay {
    var found := Find(s.txns, o.reference);
    if found.None? then NotSeen
    else
      var row := s.txns[found.value];
      if WalletOf(o.user) !in Participants(row) then Conflicts(ReferenceForeign)
      else if !row.Withdrawal? || row.amount != o.amount then Conflicts(ReferenceDiverged)
      else if row.bankAccount != o.bankAccount then Conflicts(ReferenceDiverged)
      else if row.status == Reversed then AlreadyRejected
      else Pays(found.value)
  }

  predicate SameWithdrawal(row: Transaction, o: WithdrawalOrder) {
    row.Withdrawal? && row.reference == o.reference && row.sender == WalletOf(o.user) && row.amount == o.amount
        && row.bankAccount == o.bankAccount
  }

  /** A retry is told its withdrawal is on its way exactly when it was posted and has not been reversed. */
  lemma RetryPaysIffPostedAndNotReversed(s: State, o: WithdrawalOrder)
    requires Inv(s)
    ensures CheckWithdrawalReplay(s, o).Pays? <==> exists t ::
              0 <= t < |s.txns| && SameWithdrawal(s.txns[t], o) && s.txns[t].status != Reversed
    ensures CheckWithdrawalReplay(s, o).AlreadyRejected? <==> exists t ::
              0 <= t < |s.txns| && SameWithdrawal(s.txns[t], o) && s.txns[t].status == Reversed
  {
    var found := Find(s.txns, o.reference);
    forall t | 0 <= t < |s.txns| && SameWithdrawal(s.txns[t], o)
      ensures found == Some(t)
    {
      assert s.txns[found.value].reference == s.txns[t].reference;
    }
    if found.Some? {
      assert RowOk(s.txns, |s.books.balances|, found.value);
      assert !CheckWithdrawalReplay(s, o).Conflicts? ==> SameWithdrawal(s.txns[found.value], o);
    }
  }

  /**
   The payout was rejected. Unless the provider already reported it paid, the withdrawal ends reversed,
   compensated by exactly one row, exactly when the reference its reversal needs was free.
   */
  lemma RejectedPayoutIsReversedIffReferenceFree(s: State, w: nat, now: int)
    requires Inv(s) && w < |s.txns| && s.txns[w].Withdrawal? && s.txns[w].status == Pending
    ensures var r := ReverseWithdrawal(s, s.txns[w].reference, now).0;
            && Keeps(s, r)
            && (r.txns[w].status == Reversed <==> !Taken(s, s.txns[w].reference + "-reversal"))
            && SumBy(ReversalOf(w), r.txns) == if Taken(s, s.txns[w].reference + "-reversal") then 0 else 1
  {
    hide UsersOk, DisputesOk, RefundsOk, AccountingOk, RequestsOk;
    ReversesWithdrawalKeeps(s, s.txns[w].reference, now);
    var found := Find(s.txns, s.txns[w].reference).value;
    assert s.txns[found].reference == s.txns[w].reference;
    var r := ReverseWithdrawal(s, s.txns[w].reference, now).0;
    if !Taken(s, s.txns[w].reference + "-reversal") {
      assert r.txns == Restatus(s, w, Reversed).txns + [ReversalRow(s, w, now)];
    }
  }

  /** How the payout call ended; the provider may also throw something unmodelled. */
  datatype Payout = PayoutAccepted | PayoutUnknown | PayoutRejected | PayoutThrew

  function WithdrawalAnswer(replay: WithdrawalReplay, otherwise: Outcome): Outcome {
    match replay
    case NotSeen => otherwise
    case Pays(t) => Replayed(t)
    case AlreadyRejected => Refused(PayoutFailed)
    case Conflicts(error) => Refused(error)
  }

  /** Debit first, then call the provider, then reverse what it confirms rejected. */
  ghost function PostAndPay(s: State, o: WithdrawalOrder, c: Context, payout: Payout, meanwhile: seq<Op>,
      now: int): (State, Outcome)
    requires Inv(s) && WithdrawalOrderOk(s, o)
  {
    WithdrawsKeeps(s, o, c);
    var (posted, outcome) := Withdraw(s, o, c);
    RunKeeps(posted, meanwhile);
    var later := Run(posted, meanwhile);
    if !outcome.Acted? then (later, WithdrawalAnswer(CheckWithdrawalReplay(later, o), outcome))
    else
      match payout
      case PayoutAccepted => (later, outcome)
      case PayoutUnknown => (later, outcome)
      case PayoutThrew => (later, Refused(PayoutFailed))
      case PayoutRejected =>
        var (reversed, undone) := ReverseWithdrawal(later, o.reference, now);
        (reversed, if undone.Refused? then undone else Refused(PayoutFailed))
  }

  ghost function InitiateWithdrawal(s: State, o: WithdrawalOrder, c: Context, payout: Payout,
                                    between: seq<Op>, meanwhile: seq<Op>, now: int): (State, Outcome)
    requires Inv(s) && WithdrawalOrderOk(s, o)
  {
    if !CheckWithdrawalReplay(s, o).NotSeen? then (s, WithdrawalAnswer(CheckWithdrawalReplay(s, o), Nothing))
    else if TurnedAway(c).Some? then (Run(s, between), Refused(TurnedAway(c).value))
    else
      RunKeeps(s, between);
      PostAndPay(Run(s, between), o, c, payout, meanwhile, now)
  }

  /** The withdrawal a success answer promises: posted and not reversed. */
  ghost predicate OnItsWay(s: State, o: WithdrawalOrder, t: nat) {
    t < |s.txns| && SameWithdrawal(s.txns[t], o) && s.txns[t].status != Reversed
  }

  /** Success is answered exactly when the withdrawal is on its way, and the answer names it. */
  ghost predicate WithdrawalAnswerIsRight(s: State, o: WithdrawalOrder, outcome: Outcome) {
    && (outcome.Acted? || outcome.Replayed? <==> exists t :: OnItsWay(s, o, t))
    && (outcome.Acted? || outcome.Replayed? ==> OnItsWay(s, o, outcome.txn))
  }

  lemma OnlyItsOwnRow(s: State, o: WithdrawalOrder, t: nat)
    requires WellFormed(s) && t < |s.txns| && SameWithdrawal(s.txns[t], o)
    ensures Find(s.txns, o.reference) == Some(t) && forall u :: OnItsWay(s, o, u) ==> u == t
  {
    assert s.txns[Find(s.txns, o.reference).value].reference == s.txns[t].reference;
  }

  lemma ReplayAnswerIsRight(s: State, o: WithdrawalOrder, otherwise: Outcome)
    requires Inv(s) && (otherwise.Nothing? || otherwise.Refused?)
    ensures WithdrawalAnswerIsRight(s, o, WithdrawalAnswer(CheckWithdrawalReplay(s, o), otherwise))
  {
    var replay := CheckWithdrawalReplay(s, o);
    var found := Find(s.txns, o.reference);
    if found.Some? {
      assert RowOk(s.txns, |s.books.balances|, found.value);
      if SameWithdrawal(s.txns[found.value], o) {
        OnlyItsOwnRow(s, o, found.value);
      }
    }
    forall t | OnItsWay(s, o, t)
      ensures replay == Pays(t)
    {
      OnlyItsOwnRow(s, o, t);
    }
    if replay.Pays? {
      assert OnItsWay(s, o, replay.txn);
    }
  }

  /** The withdrawal's row at the end of the payout call: its status is all that can have changed. */
  lemma WithdrawalRowPosted(s: State, o: WithdrawalOrder, c: Context)
    requires Inv(s) && WithdrawalOrderOk(s, o) && Withdraw(s, o, c).1.Acted?
    ensures var (posted, outcome) := Withdraw(s, o, c);
            && outcome == Acted(|s.txns|) && Keeps(s, posted)
            && |s.txns| < |posted.txns| && posted.txns[|s.txns|] == WithdrawalRow(o, c)
  {
    hide UsersOk, DisputesOk, RefundsOk, ReversalsOk, AccountingOk, RequestsOk;
    WithdrawsKeeps(s, o, c);
    assert Withdraw(s, o, c).0.txns == s.txns + [WithdrawalRow(o, c)];
  }

  lemma WithdrawalRowStays(s: State, o: WithdrawalOrder, c: Context, meanwhile: seq<Op>)
    requires Inv(s) && WithdrawalOrderOk(s, o) && Withdraw(s, o, c).1.Acted?
    ensures var posted := Withdraw(s, o, c).0;
            && Withdraw(s, o, c).1 == Acted(|s.txns|) && Keeps(s, posted)
            && |s.txns| < |posted.txns| && posted.txns[|s.txns|] == WithdrawalRow(o, c)
            && var later := Run(posted, meanwhile);
               Keeps(s, later) && |s.txns| < |later.txns| && SameWithdrawal(later.txns[|s.txns|], o)
  {
    hide UsersOk, DisputesOk, RefundsOk, ReversalsOk, AccountingOk, RequestsOk, Withdraw;
    var posted := Withdraw(s, o, c).0;
    WithdrawalRowPosted(s, o, c);
    RunKeeps(posted, meanwhile);
    EvolvesTransitive(s, posted, Run(posted, meanwhile));
    assert CanBecome(posted.txns[|s.txns|], Run(posted, meanwhile).txns[|s.txns|]);
  }

  /** What the provider's reports, by webhook or poll, come to for a withdrawal. */
  datatype Reported = NothingReported | ReportedPaid | ReportedFailed

  /** A paid report counts at the withdrawal's own amount, and a failed one when its reversal's reference is free. */
  function Report(s: State, o: WithdrawalOrder, op: Op): Reported {
    match op
    case CompletesWithdrawal(reference, amount) =>
      if reference == o.reference && amount == o.amount then ReportedPaid else NothingReported
    case ReversesWithdrawal(reference, _) =>
      if reference == o.reference && !Taken(s, o.reference + "-reversal") then ReportedFailed else NothingReported
    case _ => NothingReported
  }

  /** The first report that counts among what is committed decides; later ones change nothing. */
  ghost function FirstReport(s: State, o: WithdrawalOrder, ops: seq<Op>): Reported {
    if ops == [] then NothingReported
    else
      var n := |ops| - 1;
      var earlier := FirstReport(s, o, ops[..n]);
      if earlier.NothingReported? then Report(Run(s, ops[..n]), o, ops[n]) else earlier
  }

  function StatusReported(r: Reported): Status {
    match r
    case NothingReported => Pending
    case ReportedPaid => Completed
    case ReportedFailed => Reversed
  }

  /** The rows before and after agree on a withdrawal. */
  ghost predicate SameAt(s: State, r: State, t: nat)
    requires t < |s.txns|
  {
    t < |r.txns| && r.txns[t] == s.txns[t]
  }

  lemma FundingsLeaveWithdrawals(s: State, report: FundingReport, now: int, t: nat)
    requires WellFormed(s) && t < |s.txns| && s.txns[t].Withdrawal? && 0 <= report.fee
    ensures SameAt(s, ReportFunding(s, report, now).0, t)
  {
  }

  lemma RefundsLeaveWithdrawals(s: State, reference: string, reported: int, t: nat)
    requires WellFormed(s) && t < |s.txns| && s.txns[t].Withdrawal?
    ensures SameAt(s, SettleRefund(s, reference, reported).0, t) && SameAt(s, FailRefund(s, reference).0, t)
  {
    if SettleRefund(s, reference, reported).1.Acted? {
      var a := Find(s.txns, reference).value;
      assert RowOk(s.txns, |s.books.balances|, a);
      SettledRowsEvolve(s.txns, a, s.txns[a].reverses);
    }
  }

  lemma ChargebacksLeaveWithdrawals(s: State, original: nat, reference: string, amount: int, now: int, t: nat)
    requires WellFormed(s) && t < |s.txns| && s.txns[t].Withdrawal?
    requires original < |s.txns| && s.txns[original].Funding? && 0 < amount
    ensures SameAt(s, RecordChargeback(s, original, reference, amount, now).0, t)
  {
    assert RowOk(s.txns, |s.books.balances|, original);
  }

  lemma RulingsLeaveWithdrawals(s: State, reference: string, ruling: Ruling, now: int, t: nat)
    requires WellFormed(s) && DisputesMatchRows(s.txns, s.disputes) && t < |s.txns| && s.txns[t].Withdrawal?
    ensures SameAt(s, ResolveDispute(s, reference, ruling, now).0, t)
  {
    var found := FindDispute(s.disputes, reference);
    if found.Some? {
      assert RowOk(s.txns, |s.books.balances|, s.disputes[found.value].chargeback);
    }
  }

  lemma OtherReportsLeaveWithdrawals(s: State, reference: string, reported: int, now: int, t: nat)
    requires WellFormed(s) && t < |s.txns| && s.txns[t].Withdrawal? && reference != s.txns[t].reference
    ensures SameAt(s, ReverseWithdrawal(s, reference, now).0, t)
    ensures SameAt(s, CompleteWithdrawal(s, reference, reported).0, t)
  {
  }

  lemma PaymentsLeaveRows(s: State, r: nat, payer: nat, reference: string, fee: int, visibility: Visibility,
      c: Context, t: nat)
    requires WellFormed(s) && t < |s.txns| && 0 <= fee
    ensures SameAt(s, PayRequest(s, r, payer, reference, fee, visibility, c).0, t)
  {
  }

  /** No other transaction touches a withdrawal's row. */
  lemma WithdrawalRowTouchedOnlyByReports(s: State, op: Op, t: nat)
    requires Inv(s) && t < |s.txns| && s.txns[t].Withdrawal?
    requires op.CompletesWithdrawal? || op.ReversesWithdrawal? ==> op.reference != s.txns[t].reference
    ensures SameAt(s, Next(s, op), t)
  {
    hide UsersOk, RefundsOk, ReversalsOk, AccountingOk, RequestsOk;
    if Enabled(s, op) {
      match op
      case ReportsFunding(report, now) => FundingsLeaveWithdrawals(s, report, now, t);
      case ReportsRefundPaid(reference, amount) => RefundsLeaveWithdrawals(s, reference, amount, t);
      case ReportsRefundFailed(reference) => RefundsLeaveWithdrawals(s, reference, 0, t);
      case RecordsChargeback(original, reference, amount, now) =>
        ChargebacksLeaveWithdrawals(s, original, reference, amount, now, t);
      case ResolvesDispute(reference, ruling, now) => RulingsLeaveWithdrawals(s, reference, ruling, now, t);
      case ReversesWithdrawal(reference, now) => OtherReportsLeaveWithdrawals(s, reference, 0, now, t);
      case CompletesWithdrawal(reference, amount) => OtherReportsLeaveWithdrawals(s, reference, amount, 0, t);
      case PaysRequest(r, payer, reference, fee, visibility, c) =>
        PaymentsLeaveRows(s, r, payer, reference, fee, visibility, c, t);
      case _ =>
    }
  }

  lemma OneReport(s: State, o: WithdrawalOrder, t: nat, op: Op)
    requires Inv(s) && t < |s.txns| && SameWithdrawal(s.txns[t], o) && s.txns[t].status == Pending
    ensures t < |Next(s, op).txns| && Next(s, op).txns[t].status == StatusReported(Report(s, o, op))
  {
    hide UsersOk, RefundsOk, ReversalsOk, AccountingOk, RequestsOk;
    OnlyItsOwnRow(s, o, t);
    if (op.CompletesWithdrawal? || op.ReversesWithdrawal?) && op.reference == o.reference {
      assert Find(s.txns, op.reference) == Some(t);
    } else {
      WithdrawalRowTouchedOnlyByReports(s, op, t);
    }
  }

  /** A pending withdrawal's status after any run is what was first reported of it. */
  lemma {:induction false} StatusIsFirstReport(s: State, o: WithdrawalOrder, t: nat, ops: seq<Op>)
    requires Inv(s) && t < |s.txns| && SameWithdrawal(s.txns[t], o) && s.txns[t].status == Pending
    ensures var r := Run(s, ops);
            Inv(r) && t < |r.txns| && SameWithdrawal(r.txns[t], o)
                && r.txns[t].status == StatusReported(FirstReport(s, o, ops))
    decreases |ops|
  {
    hide UsersOk, DisputesOk, RefundsOk, ReversalsOk, AccountingOk, RequestsOk;
    RunKeeps(s, ops);
    assert CanBecome(s.txns[t], Run(s, ops).txns[t]);
    if ops != [] {
      var n := |ops| - 1;
      StatusIsFirstReport(s, o, t, ops[..n]);
      var before := Run(s, ops[..n]);
      NextKeeps(before, ops[n]);
      assert CanBecome(before.txns[t], Next(before, ops[n]).txns[t]);
      if FirstReport(s, o, ops[..n]).NothingReported? {
        OneReport(before, o, t, ops[n]);
      }
    }
  }

  /** How the payout call's outcome and what was reported meanwhile can part. */
  ghost predicate PayoutMisleads(posted: State, o: WithdrawalOrder, payout: Payout, meanwhile: seq<Op>) {
    var reported := FirstReport(posted, o, meanwhile);
    match payout
    case PayoutAccepted => reported.ReportedFailed?
    case PayoutUnknown => reported.ReportedFailed?
    case PayoutThrew => !reported.ReportedFailed?
    case PayoutRejected =>
      reported.ReportedPaid? || (reported.NothingReported? && Taken(Run(posted, meanwhile), o.reference + "-reversal"))
  }

  lemma PaidAnswer(s: State, o: WithdrawalOrder, c: Context, payout: Payout, meanwhile: seq<Op>, now: int)
    requires Inv(s) && WithdrawalOrderOk(s, o) && Withdraw(s, o, c).1.Acted?
    ensures var (r, outcome) := PostAndPay(s, o, c, payout, meanwhile, now);
            && Keeps(s, r)
            && (WithdrawalAnswerIsRight(r, o, outcome) <==> !PayoutMisleads(Withdraw(s, o, c).0, o, payout, meanwhile))
  {
    hide UsersOk, DisputesOk, RefundsOk, ReversalsOk, AccountingOk, RequestsOk, Evolves, Withdraw, FirstReport;
    var t := |s.txns|;
    WithdrawalRowStays(s, o, c, meanwhile);
    StatusIsFirstReport(Withdraw(s, o, c).0, o, t, meanwhile);
    var later := Run(Withdraw(s, o, c).0, meanwhile);
    OnlyItsOwnRow(later, o, t);
    assert later.txns[t].status != Reversed ==> OnItsWay(later, o, t);
    if payout.PayoutRejected? {
      ReversedAnswer(later, o, t, now);
      EvolvesTransitive(s, later, ReverseWithdrawal(later, o.reference, now).0);
    }
  }

  lemma ReversedAnswer(s: State, o: WithdrawalOrder, t: nat, now: int)
    requires Inv(s) && t < |s.txns| && SameWithdrawal(s.txns[t], o)
    ensures var r := ReverseWithdrawal(s, o.reference, now).0;
            && Keeps(s, r)
            && ((exists u :: OnItsWay(r, o, u))
                <==> s.txns[t].status == Completed
                     || (s.txns[t].status == Pending && Taken(s, o.reference + "-reversal")))
  {
    hide UsersOk, DisputesOk, RefundsOk, ReversalsOk, AccountingOk, RequestsOk;
    ReversesWithdrawalKeeps(s, o.reference, now);
    OnlyItsOwnRow(s, o, t);
    assert RowOk(s.txns, |s.books.balances|, t);
    var r := ReverseWithdrawal(s, o.reference, now).0;
    assert CanBecome(s.txns[t], r.txns[t]);
    OnlyItsOwnRow(r, o, t);
    if s.txns[t].status == Pending {
      RejectedPayoutIsReversedIffReferenceFree(s, t, now);
    }
    assert r.txns[t].status != Reversed ==> OnItsWay(r, o, t);
  }

  /** What the answer can miss. */
  ghost predicate WithdrawalMisled(s: State, o: WithdrawalOrder, c: Context, payout: Payout, between: seq<Op>,
      meanwhile: seq<Op>)
    requires Inv(s) && WithdrawalOrderOk(s, o)
  {
    RunKeeps(s, between);
    var begun := Run(s, between);
    && CheckWithdrawalReplay(s, o).NotSeen?
    && if TurnedAway(c).Some? then exists t :: OnItsWay(begun, o, t)
       else if Withdraw(begun, o, c).1.Acted? then
         PayoutMisleads(Withdraw(begun, o, c).0, o, payout, meanwhile)
       else false
  }

  /**
   The client is told its withdrawal is on its way exactly when it is, whatever was committed meanwhile, but
   for these: a frozen user or a wrong PIN is turned away from a twin that posted; the provider accepted or left
   unknown what it then reported failed; it threw after the debit; or it rejected what it had reported paid, or
   what could not be reversed because the reversal's reference was taken.
   */
  lemma WithdrawalAnswerRightUnlessMisled(s: State, o: WithdrawalOrder, c: Context, payout: Payout,
                                          between: seq<Op>, meanwhile: seq<Op>, now: int)
    requires Inv(s) && WithdrawalOrderOk(s, o)
    ensures var (r, outcome) := InitiateWithdrawal(s, o, c, payout, between, meanwhile, now);
            && Keeps(s, r)
            && (WithdrawalAnswerIsRight(r, o, outcome) <==> !WithdrawalMisled(s, o, c, payout, between, meanwhile))
  {
    hide UsersOk, DisputesOk, RefundsOk, ReversalsOk, AccountingOk, RequestsOk;
    if !CheckWithdrawalReplay(s, o).NotSeen? {
      UnchangedKeeps(s);
      ReplayAnswerIsRight(s, o, Nothing);
    } else {
      var begun := Run(s, between);
      RunKeeps(s, between);
      if TurnedAway(c).None? {
        if Withdraw(begun, o, c).1.Acted? {
          PaidAnswer(begun, o, c, payout, meanwhile, now);
        } else {
          UnpostedAnswer(begun, o, c, payout, meanwhile, now);
        }
        EvolvesTransitive(s, begun, PostAndPay(begun, o, c, payout, meanwhile, now).0);
      }
    }
  }

  lemma UnpostedAnswer(s: State, o: WithdrawalOrder, c: Context, payout: Payout, meanwhile: seq<Op>, now: int)
    requires Inv(s) && WithdrawalOrderOk(s, o) && !Withdraw(s, o, c).1.Acted?
    ensures var (r, outcome) := PostAndPay(s, o, c, payout, meanwhile, now);
            Keeps(s, r) && WithdrawalAnswerIsRight(r, o, outcome)
  {
    RunKeeps(s, meanwhile);
    ReplayAnswerIsRight(Run(s, meanwhile), o, Withdraw(s, o, c).1);
  }

  // ----- Each way a withdrawal's answer can miss, at its input -----

  /** What the five inputs have in common: nothing seen before, and the withdrawal would post. */
  ghost predicate Posts(s: State, o: WithdrawalOrder, c: Context) {
    Inv(s) && WithdrawalOrderOk(s, o) && CheckWithdrawalReplay(s, o).NotSeen? && Withdraw(s, o, c).1.Acted?
  }

  lemma PostsIsNotTurnedAway(s: State, o: WithdrawalOrder, c: Context)
    requires Posts(s, o, c)
    ensures TurnedAway(c).None? && Withdraw(s, o, c).1 == Acted(|s.txns|)
    ensures forall reference :: Taken(Withdraw(s, o, c).0, reference) <==>
              Taken(s, reference) || reference == o.reference
  {
    hide UsersOk, DisputesOk, RefundsOk, ReversalsOk, AccountingOk, RequestsOk, CheckWithdrawalReplay;
    var r := Withdraw(s, o, c).0;
    assert r.txns == s.txns + [WithdrawalRow(o, c)];
    forall reference
      ensures Taken(r, reference) <==> Taken(s, reference) || reference == o.reference
    {
      assert r.txns[..|s.txns|] == s.txns;
    }
  }

  /** The answer of a withdrawal that nothing was committed before. */
  lemma AnswerAlone(s: State, o: WithdrawalOrder, c: Context, payout: Payout, meanwhile: seq<Op>, now: int)
    requires Posts(s, o, c)
    ensures InitiateWithdrawal(s, o, c, payout, [], meanwhile, now) == PostAndPay(s, o, c, payout, meanwhile, now)
    ensures var (r, outcome) := InitiateWithdrawal(s, o, c, payout, [], meanwhile, now);
            WithdrawalAnswerIsRight(r, o, outcome) <==> !PayoutMisleads(Withdraw(s, o, c).0, o, payout, meanwhile)
  {
    hide UsersOk, DisputesOk, RefundsOk, ReversalsOk, AccountingOk, RequestsOk, Withdraw, PayoutMisleads;
    PostsIsNotTurnedAway(s, o, c);
    assert Run(s, []) == s;
    WithdrawalAnswerRightUnlessMisled(s, o, c, payout, [], meanwhile, now);
  }

  lemma ReportOfOne(s: State, o: WithdrawalOrder, op: Op)
    ensures FirstReport(s, o, [op]) == Report(s, o, op)
  {
    assert [op][..0] == [] && Run(s, []) == s;
  }

  /** Accepted, and reported failed before the answer: success is answered for a reversed withdrawal. */
  lemma AcceptedThenReportedFailed(s: State, o: WithdrawalOrder, c: Context, now: int)
    requires Posts(s, o, c) && !Taken(s, o.reference + "-reversal")
    ensures var (r, outcome) :=
              InitiateWithdrawal(s, o, c, PayoutAccepted, [], [ReversesWithdrawal(o.reference, now)], now);
            outcome == Acted(|s.txns|) && !WithdrawalAnswerIsRight(r, o, outcome)
  {
    hide UsersOk, DisputesOk, RefundsOk, ReversalsOk, AccountingOk, RequestsOk, Withdraw, WithdrawalAnswerIsRight;
    PostsIsNotTurnedAway(s, o, c);
    var report := ReversesWithdrawal(o.reference, now);
    ReportOfOne(Withdraw(s, o, c).0, o, report);
    assert |o.reference + "-reversal"| > |o.reference|;
    AnswerAlone(s, o, c, PayoutAccepted, [report], now);
  }

  /** Reported paid, and then rejected: failure is answered for a paid withdrawal. */
  lemma RejectedAfterReportedPaid(s: State, o: WithdrawalOrder, c: Context, now: int)
    requires Posts(s, o, c)
    ensures var (r, outcome) :=
              InitiateWithdrawal(s, o, c, PayoutRejected, [], [CompletesWithdrawal(o.reference, o.amount)], now);
            outcome.Refused? && !WithdrawalAnswerIsRight(r, o, outcome)
  {
    hide UsersOk, DisputesOk, RefundsOk, ReversalsOk, AccountingOk, RequestsOk, Withdraw, WithdrawalAnswerIsRight;
    PostsIsNotTurnedAway(s, o, c);
    var report := CompletesWithdrawal(o.reference, o.amount);
    ReportOfOne(Withdraw(s, o, c).0, o, report);
    AnswerAlone(s, o, c, PayoutRejected, [report], now);
  }

  /** Rejected while another row has the reversal's reference: failure is answered and the wallet stays debited. */
  lemma RejectedWithReversalTaken(s: State, o: WithdrawalOrder, c: Context, now: int)
    requires Posts(s, o, c) && Taken(s, o.reference + "-reversal")
    ensures var (r, outcome) := InitiateWithdrawal(s, o, c, PayoutRejected, [], [], now);
            outcome.Refused? && !WithdrawalAnswerIsRight(r, o, outcome)
  {
    hide UsersOk, DisputesOk, RefundsOk, ReversalsOk, AccountingOk, RequestsOk, Withdraw, WithdrawalAnswerIsRight;
    PostsIsNotTurnedAway(s, o, c);
    assert Run(Withdraw(s, o, c).0, []) == Withdraw(s, o, c).0;
    AnswerAlone(s, o, c, PayoutRejected, [], now);
  }

  /** The provider threw after the debit: failure is answered for a withdrawal still on its way. */
  lemma ThrewAfterTheDebit(s: State, o: WithdrawalOrder, c: Context, now: int)
    requires Posts(s, o, c)
    ensures var (r, outcome) := InitiateWithdrawal(s, o, c, PayoutThrew, [], [], now);
            outcome.Refused? && !WithdrawalAnswerIsRight(r, o, outcome)
  {
    hide UsersOk, DisputesOk, RefundsOk, ReversalsOk, AccountingOk, RequestsOk, Withdraw, WithdrawalAnswerIsRight;
    PostsIsNotTurnedAway(s, o, c);
    AnswerAlone(s, o, c, PayoutThrew, [], now);
  }

  /** Frozen while its twin posts: failure is answered for a withdrawal on its way. */
  lemma FrozenWithdrawalTwinIsToldItFailed(s: State, o: WithdrawalOrder, twin: Context, c: Context, payout: Payout,
      now: int)
    requires Posts(s, o, twin) && c.sawFrozen
    ensures var (r, outcome) := InitiateWithdrawal(s, o, c, payout, [Withdraws(o, twin)], [], now);
            outcome == Refused(AccountFrozen) && !WithdrawalAnswerIsRight(r, o, outcome)
  {
    hide UsersOk, RefundsOk, ReversalsOk, AccountingOk, RequestsOk, Withdraw;
    WithdrawalRowStays(s, o, twin, []);
    RunOfOne(s, Withdraws(o, twin));
    assert OnItsWay(Withdraw(s, o, twin).0, o, |s.txns|);
  }

  lemma WithdrawnBalances(s: State, o: WithdrawalOrder, c: Context)
    requires WellFormed(s) && WithdrawalOrderOk(s, o)
    ensures WithdrawalPosted(s, o, c).books.balances
            == Moved(s.books.balances, WalletOf(o.user), o.amount, o.platformFee, o.providerFee)
  {
    var l0 := Leg(WalletOf(o.user), Debit, o.amount + o.platformFee + o.providerFee);
    var l1, l2 := Leg(FLOAT, Credit, o.amount + o.providerFee), Leg(FEE_INCOME, Credit, o.platformFee);
    Post5(s.books, |s.txns|, l0, l1, l2, Leg(FEE_EXPENSE, Debit, o.providerFee),
        Leg(FEE_RECOVERY, Credit, o.providerFee));
  }

  lemma ReversedBalances(s: State, w: nat, now: int)
    requires WellFormed(s) && w < |s.txns| && s.txns[w].Withdrawal? && RowOk(s.txns, |s.books.balances|, w)
    ensures var row := s.txns[w];
            WithdrawalReversed(s, w, now).books.balances
            == MovedBack(s.books.balances, row.sender, row.amount, row.platformFee, row.providerFee)
  {
    var row := s.txns[w];
    var l0 := Leg(row.sender, Credit, row.amount + row.platformFee + row.providerFee);
    var l1, l2 := Leg(FLOAT, Debit, row.amount + row.providerFee), Leg(FEE_INCOME, Debit, row.platformFee);
    var l3, l4 := Leg(FEE_EXPENSE, Credit, row.providerFee), Leg(FEE_RECOVERY, Debit, row.providerFee);
    assert Mirror(WithdrawalLegs(row.sender, row.amount, row.platformFee, row.providerFee)) == [l0, l1, l2, l3, l4];
    Post5(s.books, |s.txns|, l0, l1, l2, l3, l4);
  }

  function Moved(b: seq<int>, wallet: nat, amount: int, platformFee: int, providerFee: int): seq<int>
    requires FIRST_WALLET <= wallet < |b|
  {
    b[wallet := b[wallet] - (amount + platformFee + providerFee)][FLOAT := b[FLOAT] - (amount + providerFee)]
     [FEE_INCOME := b[FEE_INCOME] + platformFee][FEE_EXPENSE := b[FEE_EXPENSE] + providerFee]
     [FEE_RECOVERY := b[FEE_RECOVERY] + providerFee]
  }

  function MovedBack(b: seq<int>, wallet: nat, amount: int, platformFee: int, providerFee: int): seq<int>
    requires FIRST_WALLET <= wallet < |b|
  {
    b[wallet := b[wallet] + (amount + platformFee + providerFee)][FLOAT := b[FLOAT] + (amount + providerFee)]
     [FEE_INCOME := b[FEE_INCOME] - platformFee][FEE_EXPENSE := b[FEE_EXPENSE] + providerFee]
     [FEE_RECOVERY := b[FEE_RECOVERY] - providerFee]
  }

  lemma ThereAndBack(b: seq<int>, wallet: nat, amount: int, platformFee: int, providerFee: int)
    requires FIRST_WALLET <= wallet < |b|
    ensures MovedBack(Moved(b, wallet, amount, platformFee, providerFee), wallet, amount, platformFee, providerFee)
            == b[FEE_EXPENSE := b[FEE_EXPENSE] + 2 * providerFee]
  {
  }

  /**
   A withdrawal and its reversal undo each other on every balance but fee_expense, which is left too high
   by twice the provider fee: so they undo each other entirely exactly when there was no provider fee.
   */
  lemma ReversalUndoesWithdrawal(s: State, o: WithdrawalOrder, c: Context, reversed: int)
    requires WellFormed(s) && WithdrawalOrderOk(s, o) && !Taken(s, o.reference)
    ensures WellFormed(WithdrawalPosted(s, o, c))
    ensures var r := WithdrawalReversed(WithdrawalPosted(s, o, c), |s.txns|, reversed).books.balances;
            && r == s.books.balances[FEE_EXPENSE := s.books.balances[FEE_EXPENSE] + 2 * o.providerFee]
            && (r == s.books.balances <==> o.providerFee == 0)
  {
    hide RowsOk, UniqueReferences, Moved, MovedBack;
    var x, w := WithdrawalPosted(s, o, c), WalletOf(o.user);
    WithdrawalPostedEvolves(s, o, c);
    WithdrawnBalances(s, o, c);
    assert x.txns == s.txns + [WithdrawalRow(o, c)] && RowOk(x.txns, |x.books.balances|, |s.txns|);
    ReversedBalances(x, |s.txns|, reversed);
    ThereAndBack(s.books.balances, w, o.amount, o.platformFee, o.providerFee);
    var r := s.books.balances[FEE_EXPENSE := s.books.balances[FEE_EXPENSE] + 2 * o.providerFee];
    assert r[FEE_EXPENSE] == s.books.balances[FEE_EXPENSE] + 2 * o.providerFee;
  }
}
