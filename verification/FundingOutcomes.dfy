/**
 Exactly when a funding starts, is credited, held, failed or refunded, and then every row, balance and entry
 left. Nothing is stated through the functions that build rows or legs.
 */
module FundingOutcomes {
  import opened Tables
  import opened Sums
  import opened Postings
  import opened Kyc
  import opened LedgerSpec
  import opened Refunds
  import opened Effects
  import Decimal

  // ----- Fundings -----

  /**
   A funding starts exactly when the wallet has room for it on top of what is already pending and its reference is
   unused; it is then a pending row, and nothing has moved.
   */
  lemma InitiatedIffRoom(s: State, user: nat, reference: string, amount: int, now: int)
    requires WellFormed(s) && user < |s.users|
    ensures var (r, outcome) := InitiateFunding(s, user, reference, amount, now);
            && (outcome.Acted? <==> MayReceive(s, user, amount, now) && Unused(s, reference))
            && (outcome.Acted? ==>
                  r == s.(txns := s.txns + [Funding(reference, Pending, amount, FIRST_WALLET + user, None, now)]))
            && (!outcome.Acted? ==> r == s && outcome.Refused?)
  {
    CapReads(s, user, amount, now);
  }

  /** A success says what was asked for: its amount, or a webhook's gross of it and the fee. */
  predicate Confirms(report: FundingReport, requested: int) {
    report.success && (report.amount == requested
        || (report.source.Webhook? && report.amount - report.fee == requested))
  }

  ghost predicate IsPendingFunding(s: State, f: nat) {
    f < |s.txns| && s.txns[f].Funding? && s.txns[f].status == Pending
  }

  /** The cap alone decides whether a confirmed funding is credited; other pending fundings do not count now. */
  ghost predicate HasRoomFor(s: State, f: nat)
    requires WellFormed(s) && f < |s.txns| && s.txns[f].Funding?
  {
    assert RowOk(s.txns, |s.books.balances|, f);
    var wallet := s.txns[f].recipient;
    Fits(s.limits.For(s.users[wallet - FIRST_WALLET].tier), s.books.balances[wallet], s.txns[f].amount)
  }

  /** A report that does not confirm what was requested fails the funding. */
  lemma UnconfirmedFundingFails(s: State, f: nat, report: FundingReport, now: int)
    requires WellFormed(s) && IsPendingFunding(s, f) && report.reference == s.txns[f].reference && 0 <= report.fee
    requires !Confirms(report, s.txns[f].amount)
    ensures ReportFunding(s, report, now) == (s.(txns := Marked(s.txns, f, Failed)), Nothing)
  {
    FoundAt(s, f);
  }

  /** The funding's row once its money arrived, with the gross the customer paid. */
  function Arrived(row: Transaction, status: Status, fee: int): Transaction
    requires row.Funding?
  {
    Funding(row.reference, status, row.amount, row.recipient, Some(row.amount + fee), row.createdAt)
  }

  lemma ArrivalMoves(b: Books, f: nat, into: nat, amount: int, fee: int)
    requires FIRST_WALLET <= |b.balances| && into < |b.balances| && (into == SUSPENSE || IsWallet(into))
    ensures var legs := [Leg(FLOAT, Debit, amount), Leg(into, Credit, amount), Leg(FEE_EXPENSE, Debit, fee),
                         Leg(FEE_RECOVERY, Credit, fee)];
            && AccountsExist(b.balances, legs)
            && Moves(b, Post(b, f, legs), map[into := amount, FLOAT := amount, FEE_EXPENSE := fee, FEE_RECOVERY := fee])
            && Writes(b, Post(b, f, legs), f, legs)
  {
    hide Post, Moves, Writes;
    var legs := [Leg(FLOAT, Debit, amount), Leg(into, Credit, amount), Leg(FEE_EXPENSE, Debit, fee),
                 Leg(FEE_RECOVERY, Credit, fee)];
    assert legs[0].account == FLOAT && legs[1].account == into;
    assert legs[2].account == FEE_EXPENSE && legs[3].account == FEE_RECOVERY;
    PostMoves(b, f, legs, map[into := amount, FLOAT := amount, FEE_EXPENSE := fee, FEE_RECOVERY := fee]);
  }

  lemma ArrivedLegs(s: State, f: nat, status: Status, into: nat, fee: int)
    requires WellFormed(s) && f < |s.txns| && s.txns[f].Funding? && 0 <= fee
    requires RowOk(s.txns, |s.books.balances|, f)
    requires (status == Completed && into == s.txns[f].recipient) || (status == Held && into == SUSPENSE)
    ensures var r, amount := Posted(Claimed(s, f, status, fee), f), s.txns[f].amount;
            && r == s.(books := r.books, txns := s.txns[f := Arrived(s.txns[f], status, fee)])
            && Moves(s.books, r.books, map[into := amount, FLOAT := amount, FEE_EXPENSE := fee, FEE_RECOVERY := fee])
            && Writes(s.books, r.books, f,
                      [Leg(FLOAT, Debit, amount), Leg(into, Credit, amount), Leg(FEE_EXPENSE, Debit, fee),
                       Leg(FEE_RECOVERY, Credit, fee)])
  {
    hide RowsOk, UniqueReferences, Post, Moves, Writes;
    ArrivalMoves(s.books, f, into, s.txns[f].amount, fee);
  }

  /** A confirmed funding with room is credited: the wallet and float grow by the amount, the fee pair by the fee. */
  lemma ConfirmedFundingIsCredited(s: State, f: nat, report: FundingReport, now: int)
    requires WellFormed(s) && IsPendingFunding(s, f) && report.reference == s.txns[f].reference && 0 <= report.fee
    requires Confirms(report, s.txns[f].amount) && HasRoomFor(s, f)
    ensures var (r, outcome) := ReportFunding(s, report, now);
            var row := s.txns[f];
            && outcome == Acted(f)
            && r == s.(books := r.books, txns := s.txns[f := Arrived(row, Completed, report.fee)])
            && Moves(s.books, r.books,
                     map[row.recipient := row.amount, FLOAT := row.amount, FEE_EXPENSE := report.fee,
                         FEE_RECOVERY := report.fee])
            && Writes(s.books, r.books, f,
                      [Leg(FLOAT, Debit, row.amount), Leg(row.recipient, Credit, row.amount),
                       Leg(FEE_EXPENSE, Debit, report.fee), Leg(FEE_RECOVERY, Credit, report.fee)])
  {
    hide UniqueReferences, Moves, Writes, Posted;
    FoundAt(s, f);
    assert RowOk(s.txns, |s.books.balances|, f);
    ArrivedLegs(s, f, Completed, s.txns[f].recipient, report.fee);
  }

  /**
   A confirmed funding without room is held: the money goes to suspense and a first refund attempt is made;
   or nothing happens, when the reference of that attempt is taken.
   */
  lemma ConfirmedFundingIsHeld(s: State, f: nat, report: FundingReport, now: int)
    requires WellFormed(s) && IsPendingFunding(s, f) && report.reference == s.txns[f].reference && 0 <= report.fee
    requires Confirms(report, s.txns[f].amount) && !HasRoomFor(s, f)
    ensures var (r, outcome) := ReportFunding(s, report, now);
            var row, reference := s.txns[f], RefundReference(f, 1);
            if !Unused(s, reference) then r == s && outcome.Refused?
            else
              && outcome == Acted(f)
              && r == s.(books := r.books,
                         txns := s.txns[f := Arrived(row, Held, report.fee)]
                                 + [FundingRefund(reference, Pending, row.amount, f, 1, now)])
              && Moves(s.books, r.books,
                       map[SUSPENSE := row.amount, FLOAT := row.amount, FEE_EXPENSE := report.fee,
                           FEE_RECOVERY := report.fee])
              && Writes(s.books, r.books, f,
                        [Leg(FLOAT, Debit, row.amount), Leg(SUSPENSE, Credit, row.amount),
                         Leg(FEE_EXPENSE, Debit, report.fee), Leg(FEE_RECOVERY, Credit, report.fee)])
  {
    hide UniqueReferences, Moves, Writes, Posted, RefundReference;
    FoundAt(s, f);
    assert RowOk(s.txns, |s.books.balances|, f);
    ArrivedLegs(s, f, Held, SUSPENSE, report.fee);
  }

  /** A report for anything but a pending funding changes nothing. */
  lemma OtherFundingReportsAreIgnored(s: State, report: FundingReport, now: int)
    requires WellFormed(s) && 0 <= report.fee
    requires forall f :: 0 <= f < |s.txns| && IsPendingFunding(s, f) ==> s.txns[f].reference != report.reference
    ensures ReportFunding(s, report, now) == (s, Nothing)
  {
    var found := Find(s.txns, report.reference);
    assert found.Some? ==> !IsPendingFunding(s, found.value);
  }

  /** Giving a funding up fails its row and nothing else. */
  lemma GivenUpFundingFails(s: State, f: nat)
    requires WellFormed(s) && f < |s.txns|
    ensures MarkFundingFailed(s, s.txns[f].reference) == s.(txns := Marked(s.txns, f, Failed))
  {
    FoundAt(s, f);
  }

  // ----- Refunds -----

  function AttemptsOf(f: nat): Transaction -> bool { (t: Transaction) => t.FundingRefund? && t.reverses == f }

  ghost predicate InFlight(s: State, f: nat, a: nat) {
    a < |s.txns| && s.txns[a].FundingRefund? && s.txns[a].reverses == f && s.txns[a].status == Pending
  }

  /**
   Exactly a held funding with no attempt in flight gets a new one, if its reference is free: for the funding's
   amount, numbered one past all there are. No money moves.
   */
  lemma RefundStartsIffNoneInFlight(s: State, f: nat, now: int)
    requires WellFormed(s)
    ensures var (r, outcome) := StartRefundAttempt(s, f, now);
            var n := CountWhere(s.txns, AttemptsOf(f)) + 1;
            var held := f < |s.txns| && s.txns[f].Funding? && s.txns[f].status == Held;
            && (outcome.Acted? <==> held && (forall a :: !InFlight(s, f, a)) && Unused(s, RefundReference(f, n)))
            && (outcome.Acted? ==>
                  r == s.(txns := s.txns + [FundingRefund(RefundReference(f, n), Pending, s.txns[f].amount, f, n,
                                                          now)]))
            && (!outcome.Acted? ==> r == s)
  {
    hide RowsOk, UniqueReferences, RefundReference;
    SumIsCount(IsAttempt(f), AttemptsOf(f), s.txns);
    assert forall a :: 0 <= a < |s.txns| ==> (IsAttemptIn(f, Pending)(s.txns[a]) == 1 <==> InFlight(s, f, a));
  }

  lemma SplitsAtDash(x: string, y: string, u: string, v: string)
    requires '-' !in x && '-' !in u && x + "-" + y == u + "-" + v
    ensures x == u && y == v
  {
    var w := x + "-" + y;
    assert w[|x|] == '-' && w[|u|] == '-';
    assert forall i :: 0 <= i < |x| ==> w[i] == x[i];
    assert forall i :: 0 <= i < |u| ==> w[i] == u[i];
    assert x == w[..|x|] == w[..|u|] == u && y == w[|x| + 1..] == v;
  }

  /** Two attempts, of one funding or of two, never have one reference. */
  lemma RefundReferencesDiffer(f: nat, n: nat, g: nat, m: nat)
    requires RefundReference(f, n) == RefundReference(g, m)
    ensures f == g && n == m
  {
    var x, y, u, v := Decimal.Print(f), Decimal.Print(n), Decimal.Print(g), Decimal.Print(m);
    assert x + "-" + y == RefundReference(f, n)[4..] == RefundReference(g, m)[4..] == u + "-" + v;
    SplitsAtDash(x, y, u, v);
    Decimal.ParsePrint(f);
    Decimal.ParsePrint(g);
    Decimal.ParsePrint(n);
    Decimal.ParsePrint(m);
  }

  /** The next attempt never meets the reference of an earlier one: only a row of another kind can be in its way. */
  lemma OnlyAnotherKindTakesRetryReference(txns: seq<Transaction>, f: nat, t: nat)
    requires RefundsOk(txns) && t < |txns|
    requires txns[t].reference == RefundReference(f, CountWhere(txns, AttemptsOf(f)) + 1)
    ensures !txns[t].FundingRefund?
  {
    hide RefundReference, RefundsOk, SumBy, CountWhere;
    if txns[t].FundingRefund? {
      SumIsCount(IsAttempt(f), AttemptsOf(f), txns);
      AttemptIsOk(txns, t);
      RefundReferencesDiffer(f, CountWhere(txns, AttemptsOf(f)) + 1, txns[t].reverses, txns[t].attempt);
      CountsItself(txns, f, t);
    }
  }

  lemma AttemptIsOk(txns: seq<Transaction>, t: nat)
    requires RefundsOk(txns) && t < |txns| && txns[t].FundingRefund?
    ensures AttemptOk(txns, t)
  {
  }

  lemma {:induction false} CountsItself(txns: seq<Transaction>, f: nat, t: nat)
    requires t < |txns| && AttemptsOf(f)(txns[t])
    ensures Attempts(txns[..t], f) < Attempts(txns, f)
  {
    var n := |txns| - 1;
    if t < n {
      CountsItself(txns[..n], f, t);
      assert txns[..n][..t] == txns[..t];
    }
  }

  /** Can a success reported for attempt `a` at `reported` settle it? */
  ghost predicate Settles(s: State, a: nat, reported: int)
    requires WellFormed(s) && a < |s.txns| && s.txns[a].FundingRefund?
  {
    assert RowOk(s.txns, |s.books.balances|, a);
    reported == s.txns[a].amount && s.txns[a].status in {Pending, Failed} && s.txns[s.txns[a].reverses].status == Held
  }

  /** The status a row is left with when attempt `a` of funding `f` settles. */
  function AfterSettling(txns: seq<Transaction>, t: nat, a: nat, f: nat): Status
    requires t < |txns|
  {
    if t == a then Completed
    else if t == f then Refunded
    else if txns[t].FundingRefund? && txns[t].reverses == f && txns[t].status == Pending then Failed
    else txns[t].status
  }

  /**
   A reported refund settles exactly when the amount is right, its funding is held and the attempt is pending or
   failed. The attempt is then completed, its funding refunded, any other attempt in flight failed, and suspense
   and float each fall by the amount; otherwise nothing changes.
   */
  lemma RefundSettlesIffHeld(s: State, a: nat, reported: int)
    requires WellFormed(s) && a < |s.txns| && s.txns[a].FundingRefund?
    ensures var (r, outcome) := SettleRefund(s, s.txns[a].reference, reported);
            if !Settles(s, a, reported) then r == s && outcome == Nothing
            else
              && outcome == Acted(a)
              && r == s.(books := r.books, txns := r.txns) && |r.txns| == |s.txns|
              && (forall t :: 0 <= t < |s.txns| ==>
                    r.txns[t] == s.txns[t].(status := AfterSettling(s.txns, t, a, s.txns[a].reverses)))
              && Moves(s.books, r.books, map[SUSPENSE := -reported, FLOAT := -reported])
              && Writes(s.books, r.books, a, [Leg(SUSPENSE, Debit, reported), Leg(FLOAT, Credit, reported)])
  {
    FoundAt(s, a);
    assert RowOk(s.txns, |s.books.balances|, a);
    if Settles(s, a, reported) {
      SettledMoves(s, a);
    }
  }

  lemma RefundMoves(b: Books, a: nat, amount: int)
    requires FIRST_WALLET <= |b.balances|
    ensures var legs := [Leg(SUSPENSE, Debit, amount), Leg(FLOAT, Credit, amount)];
            && AccountsExist(b.balances, legs)
            && Moves(b, Post(b, a, legs), map[SUSPENSE := -amount, FLOAT := -amount])
            && Writes(b, Post(b, a, legs), a, legs)
  {
    var legs := [Leg(SUSPENSE, Debit, amount), Leg(FLOAT, Credit, amount)];
    assert legs[0].account == SUSPENSE && legs[1].account == FLOAT;
    PostMoves(b, a, legs, map[SUSPENSE := -amount, FLOAT := -amount]);
  }

  lemma SettledMoves(s: State, a: nat)
    requires WellFormed(s) && a < |s.txns| && s.txns[a].FundingRefund? && RowOk(s.txns, |s.books.balances|, a)
    ensures var r, amount := RefundSettled(s, a), s.txns[a].amount;
            && r == s.(books := r.books, txns := r.txns) && |r.txns| == |s.txns|
            && (forall t :: 0 <= t < |s.txns| ==>
                  r.txns[t] == s.txns[t].(status := AfterSettling(s.txns, t, a, s.txns[a].reverses)))
            && Moves(s.books, r.books, map[SUSPENSE := -amount, FLOAT := -amount])
            && Writes(s.books, r.books, a, [Leg(SUSPENSE, Debit, amount), Leg(FLOAT, Credit, amount)])
  {
    hide RowsOk, UniqueReferences, Post, Moves, Writes;
    RefundMoves(s.books, a, s.txns[a].amount);
    assert Settled(s.txns, a, s.txns[a].reverses)[a] == WithStatus(s.txns[a], Completed);
  }

  /** No attempt of a funding is in flight once one has settled. */
  lemma NoneInFlightOnceSettled(s: State, a: nat, reported: int, b: nat)
    requires WellFormed(s) && a < |s.txns| && s.txns[a].FundingRefund? && Settles(s, a, reported)
    ensures !InFlight(SettleRefund(s, s.txns[a].reference, reported).0, s.txns[a].reverses, b)
  {
    RefundSettlesIffHeld(s, a, reported);
  }

  /** A reported failure fails exactly an attempt still pending. */
  lemma RefundFailsIffPending(s: State, a: nat)
    requires WellFormed(s) && a < |s.txns| && s.txns[a].FundingRefund?
    ensures FailRefund(s, s.txns[a].reference)
            == if s.txns[a].status == Pending then (s.(txns := Marked(s.txns, a, Failed)), Acted(a)) else (s, Nothing)
  {
    FoundAt(s, a);
  }

  /** A success that settled nothing raises the alert exactly when the money already went out by another attempt. */
  lemma AlertIffPaidByAnother(s: State, a: nat)
    requires WellFormed(s) && RefundsOk(s.txns) && a < |s.txns| && s.txns[a].FundingRefund?
    ensures LateSuccessAlert(s, s.txns[a].reference) <==>
              exists b :: 0 <= b < |s.txns| && b != a && AttemptsOf(s.txns[a].reverses)(s.txns[b])
                  && s.txns[b].status == Completed
  {
    var f := s.txns[a].reverses;
    FoundAt(s, a);
    assert RowOk(s.txns, |s.books.balances|, a) && FundingOk(s.txns, f);
    if b :| 0 <= b < |s.txns| && b != a && AttemptsOf(f)(s.txns[b]) && s.txns[b].status == Completed {
      CompletedMeansRefunded(s, b);
      if s.txns[a].status == Completed {
        RefundedOnce(s, a, b);
      }
    }
    if LateSuccessAlert(s, s.txns[a].reference)
        && forall b :: 0 <= b < |s.txns| ==> IsAttemptIn(f, Completed)(s.txns[b]) == 0 {
      SumZero(IsAttemptIn(f, Completed), s.txns);
    }
  }

  lemma CompletedMeansRefunded(s: State, b: nat)
    requires WellFormed(s) && RefundsOk(s.txns) && b < |s.txns| && s.txns[b].FundingRefund?
    requires s.txns[b].status == Completed && RowOk(s.txns, |s.books.balances|, b)
    ensures s.txns[s.txns[b].reverses].status == Refunded
  {
    var f := s.txns[b].reverses;
    assert FundingOk(s.txns, f);
    SumAtLeastMember(IsAttemptIn(f, Completed), s.txns, b);
    SumAtLeastMember(IsAttempt(f), s.txns, b);
  }
}
