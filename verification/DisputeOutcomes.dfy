/**
 Exactly when a chargeback is recorded and a dispute ruled on, and then every row, balance, entry and freeze
 left. Nothing is stated through the functions that build rows or legs.
 */
module DisputeOutcomes {
  import opened Tables
  import opened Sums
  import opened Postings
  import opened Kyc
  import opened LedgerSpec
  import opened DisputeRules
  import opened Effects

  // ----- Chargebacks and rulings -----

  function ChargedTo(original: nat): Transaction -> bool {
    (t: Transaction) => t.Chargeback? && t.reverses == original && t.status == Completed
  }

  /** The legs of a chargeback out of a wallet, or of its resolution back into it. */
  function BankLegs(wallet: nat, amount: int, out: bool): seq<Leg> {
    if out then [Leg(wallet, Debit, amount), Leg(FLOAT, Credit, amount)]
    else [Leg(FLOAT, Debit, amount), Leg(wallet, Credit, amount)]
  }

  lemma BankMoves(b: Books, t: nat, wallet: nat, amount: int, out: bool)
    requires IsWallet(wallet) && wallet < |b.balances|
    ensures var legs, moved := BankLegs(wallet, amount, out), if out then -amount else amount;
            && AccountsExist(b.balances, legs)
            && Moves(b, Post(b, t, legs), map[wallet := moved, FLOAT := moved])
            && Writes(b, Post(b, t, legs), t, legs)
  {
    hide Post, Moves, Writes;
    var legs, moved := BankLegs(wallet, amount, out), if out then -amount else amount;
    assert legs[0].account in {wallet, FLOAT} && legs[1].account in {wallet, FLOAT};
    PostMoves(b, t, legs, map[wallet := moved, FLOAT := moved]);
  }

  /** The amount fits what earlier chargebacks left, and neither table knows the reference. */
  ghost predicate MayCharge(s: State, original: nat, reference: string, amount: int)
    requires original < |s.txns|
  {
    && AmountWhere(s.txns, ChargedTo(original)) + amount <= s.txns[original].amount
    && Unused(s, reference) && forall d :: 0 <= d < |s.disputes| ==> s.disputes[d].reference != reference
  }

  /**
   A chargeback is recorded exactly when it fits: wallet and float fall by it, the funding is disputed, an open
   dispute names it, and the owner is frozen if the balance is now below zero.
   */
  lemma ChargebackRecordedIffFits(s: State, original: nat, reference: string, amount: int, now: int)
    requires WellFormed(s) && original < |s.txns| && s.txns[original].Funding? && 0 < amount
    ensures var (r, outcome) := RecordChargeback(s, original, reference, amount, now);
            var wallet := s.txns[original].recipient;
            if !MayCharge(s, original, reference, amount) then r == s && outcome.Refused?
            else
              && outcome == Acted(|s.txns|)
              && r == s.(books := r.books, users := r.users,
                         txns := Marked(s.txns, original, Disputed)
                                 + [Chargeback(reference, Completed, amount, original, wallet, now)],
                         disputes := s.disputes + [Dispute(|s.txns|, reference, Open, amount)])
              && Moves(s.books, r.books, map[wallet := -amount, FLOAT := -amount])
              && Writes(s.books, r.books, |s.txns|, BankLegs(wallet, amount, true))
              && IsWallet(wallet) && wallet < |s.books.balances|
              && r.users == Freezing(s.users, wallet - FIRST_WALLET, s.books.balances[wallet] < amount, false)
  {
    hide UniqueReferences, Moves, Writes, ChargebackPosted;
    SumIsAmount(ChargedAgainst(original), ChargedTo(original), s.txns);
    assert RowOk(s.txns, |s.books.balances|, original);
    ChargedMoves(s, original, reference, amount, now);
  }

  /** One user is frozen, or unfrozen, or neither. */
  function Freezing(users: seq<User>, u: nat, freeze: bool, unfreeze: bool): seq<User>
    requires u < |users|
  {
    users[u := users[u].(frozen := freeze || (users[u].frozen && !unfreeze))]
  }

  lemma ChargedMoves(s: State, original: nat, reference: string, amount: int, now: int)
    requires WellFormed(s) && original < |s.txns| && s.txns[original].Funding? && 0 < amount
    requires RowOk(s.txns, |s.books.balances|, original)
    ensures var r := ChargebackPosted(s, original, reference, amount, now);
            var wallet := s.txns[original].recipient;
            && r == s.(books := r.books, users := r.users,
                       txns := Marked(s.txns, original, Disputed)
                               + [Chargeback(reference, Completed, amount, original, wallet, now)],
                       disputes := s.disputes + [Dispute(|s.txns|, reference, Open, amount)])
            && Moves(s.books, r.books, map[wallet := -amount, FLOAT := -amount])
            && Writes(s.books, r.books, |s.txns|, BankLegs(wallet, amount, true))
            && r.users == Freezing(s.users, wallet - FIRST_WALLET, s.books.balances[wallet] < amount, false)
  {
    hide RowsOk, UniqueReferences, Post, Writes;
    BankMoves(s.books, |s.txns|, s.txns[original].recipient, amount, true);
  }

  lemma DisputeFoundAt(s: State, d: nat)
    requires WellFormed(s) && DisputesOk(s.txns, s.disputes) && d < |s.disputes|
    ensures FindDispute(s.disputes, s.disputes[d].reference) == Some(d)
  {
    var found := FindDispute(s.disputes, s.disputes[d].reference).value;
    FoundAt(s, s.disputes[d].chargeback);
    FoundAt(s, s.disputes[found].chargeback);
  }

  /** Another dispute against the same funding has this status. */
  predicate Sibling(s: State, d: nat, original: nat, status: DisputeStatus) {
    exists e :: 0 <= e < |s.disputes| && e != d && IsAgainst(s, e, original) && s.disputes[e].status == status
  }

  predicate IsAgainst(s: State, e: nat, original: nat)
    requires e < |s.disputes|
  {
    var c := s.disputes[e].chargeback;
    c < |s.txns| && s.txns[c].Chargeback? && s.txns[c].reverses == original
  }

  /** Another dispute is open on the same wallet, whatever funding it is about. */
  predicate OtherOpenOn(s: State, d: nat, wallet: nat) {
    exists e :: 0 <= e < |s.disputes| && e != d && IsOn(s, e, wallet) && s.disputes[e].status == Open
  }

  predicate IsOn(s: State, e: nat, wallet: nat)
    requires e < |s.disputes|
  {
    var c := s.disputes[e].chargeback;
    c < |s.txns| && s.txns[c].Chargeback? && s.txns[c].sender == wallet
  }

  /** One dispute is ruled on. */
  function RuledAs(disputes: seq<Dispute>, d: nat, status: DisputeStatus): seq<Dispute>
    requires d < |disputes|
  {
    disputes[d := Dispute(disputes[d].chargeback, disputes[d].reference, status, disputes[d].amount)]
  }

  lemma SiblingsDecide(s: State, d: nat, original: nat, ruled: DisputeStatus)
    requires WellFormed(s) && d < |s.disputes| && IsAgainst(s, d, original) && ruled != Open
    ensures AggregateStatus(s.txns, RuledAs(s.disputes, d, ruled), original)
            == if Sibling(s, d, original, Open) then Disputed
               else if ruled == Upheld || Sibling(s, d, original, Upheld) then Reversed else Completed
  {
    hide WellFormed;
    var disputes := RuledAs(s.disputes, d, ruled);
    forall e | 0 <= e < |s.disputes|
      ensures Against(s.txns, disputes[e], original) == IsAgainst(s, e, original)
    {
    }
    forall status | Sibling(s, d, original, status)
      ensures SomeDispute(s.txns, disputes, original, status)
    {
      var e :| 0 <= e < |s.disputes| && e != d && IsAgainst(s, e, original) && s.disputes[e].status == status;
      assert disputes[e] == s.disputes[e];
    }
    if ruled == Upheld {
      assert Against(s.txns, disputes[d], original) && disputes[d].status == Upheld;
    }
  }

  /**
   An upheld dispute is final: its funding stays disputed while a sibling is open and is reversed otherwise, and no
   money, user or other row changes.
   */
  lemma UpheldIsFinal(s: State, d: nat, now: int)
    requires WellFormed(s) && DisputesOk(s.txns, s.disputes) && d < |s.disputes|
    ensures var c := s.disputes[d].chargeback;
            var (r, outcome) := ResolveDispute(s, s.disputes[d].reference, Upholds, now);
            && s.txns[c].Chargeback? && s.txns[c].reverses < |s.txns|
            && var f := s.txns[c].reverses;
               if s.disputes[d].status != Open then r == s && outcome == Refused(DisputeAlreadyResolved)
               else
                 && outcome == Acted(c)
                 && r == s.(disputes := RuledAs(s.disputes, d, Upheld),
                            txns := Marked(s.txns, f, if Sibling(s, d, f, Open) then Disputed else Reversed))
  {
    hide UniqueReferences, DisputesOk, Sibling, AggregateStatus;
    DisputeFoundAt(s, d);
    var c := s.disputes[d].chargeback;
    assert RowOk(s.txns, |s.books.balances|, c);
    SiblingsDecide(s, d, s.txns[c].reverses, Upheld);
    assert WithDispute(s, d, Upheld).disputes == RuledAs(s.disputes, d, Upheld);
  }

  /** What is left of the funding's disputes once one is resolved in Cliqpay's favour. */
  function AfterFavour(s: State, d: nat, f: nat): Status {
    if Sibling(s, d, f, Open) then Disputed else if Sibling(s, d, f, Upheld) then Reversed else Completed
  }

  /**
   An open dispute ruled in Cliqpay's favour at its own amount, while the derived reference is free, gives the
   amount back to wallet and float, leaves the funding the status its other disputes call for, and unfreezes the
   owner exactly when the balance is not negative and no other dispute is open on the wallet.
   */
  lemma FavourGivesBackAndUnfreezes(s: State, d: nat, amount: int, now: int)
    requires WellFormed(s) && DisputesOk(s.txns, s.disputes) && d < |s.disputes|
    ensures var dispute := s.disputes[d];
            var c, derived := s.txns[dispute.chargeback], s.disputes[d].reference + "-resolved";
            var (r, outcome) := ResolveDispute(s, dispute.reference, Favors(amount), now);
            && c.Chargeback? && c.reverses < |s.txns| && IsWallet(c.sender) && c.sender < |s.books.balances|
            && if dispute.status != Open || amount != dispute.amount || !Unused(s, derived)
               then r == s && outcome.Refused?
               else
                 && outcome == Acted(|s.txns|)
                 && r == s.(books := r.books, disputes := RuledAs(s.disputes, d, Resolved),
                            txns := Marked(s.txns, c.reverses, AfterFavour(s, d, c.reverses))
                                    + [ChargebackReversal(derived, Completed, amount, dispute.chargeback, c.sender,
                                                          now)],
                            users := Freezing(s.users, c.sender - FIRST_WALLET, false,
                                              0 <= s.books.balances[c.sender] + amount
                                              && !OtherOpenOn(s, d, c.sender)))
                 && Moves(s.books, r.books, map[c.sender := amount, FLOAT := amount])
                 && Writes(s.books, r.books, |s.txns|, BankLegs(c.sender, amount, false))
  {
    hide UniqueReferences, Sibling, AggregateStatus, Moves, Writes, DisputeFavored, AfterFavour;
    DisputeFoundAt(s, d);
    assert RowOk(s.txns, |s.books.balances|, s.disputes[d].chargeback);
    if s.disputes[d].status == Open {
      FavourMoves(s, d, now);
    }
  }

  lemma FavourMoves(s: State, d: nat, now: int)
    requires WellFormed(s) && DisputesMatchRows(s.txns, s.disputes) && d < |s.disputes|
    requires RowOk(s.txns, |s.books.balances|, s.disputes[d].chargeback)
    ensures var dispute := s.disputes[d];
            var c, amount, r := s.txns[dispute.chargeback], s.disputes[d].amount, DisputeFavored(s, d, now);
            && r == s.(books := r.books, disputes := RuledAs(s.disputes, d, Resolved),
                       txns := Marked(s.txns, c.reverses, AfterFavour(s, d, c.reverses))
                               + [ChargebackReversal(dispute.reference + "-resolved", Completed, amount,
                                                     dispute.chargeback, c.sender, now)],
                       users := Freezing(s.users, c.sender - FIRST_WALLET, false,
                                         0 <= s.books.balances[c.sender] + amount && !OtherOpenOn(s, d, c.sender)))
            && Moves(s.books, r.books, map[c.sender := amount, FLOAT := amount])
            && Writes(s.books, r.books, |s.txns|, BankLegs(c.sender, amount, false))
  {
    hide RowsOk, UniqueReferences, Post, Writes, Sibling, AggregateStatus;
    var dispute := s.disputes[d];
    var c, amount := s.txns[dispute.chargeback], dispute.amount;
    BankMoves(s.books, |s.txns|, c.sender, amount, false);
    FavouredStatus(s, d, now);
    OpenOnWalletReads(s, d, DisputeFavored(s, d, now).txns, c.sender);
  }

  lemma FavouredStatus(s: State, d: nat, now: int)
    requires WellFormed(s) && d < |s.disputes| && RowOk(s.txns, |s.books.balances|, s.disputes[d].chargeback)
    ensures var c := s.disputes[d].chargeback;
            var txns := s.txns + [ResolutionRow(s, c, now)];
            AggregateStatus(txns, RuledAs(s.disputes, d, Resolved), s.txns[c].reverses)
            == AfterFavour(s, d, s.txns[c].reverses)
  {
    var c := s.disputes[d].chargeback;
    SiblingsDecide(s, d, s.txns[c].reverses, Resolved);
  }

  /** Once ruled on, a dispute is not among those open on its wallet, and no other row was charged back. */
  lemma OpenOnWalletReads(s: State, d: nat, txns: seq<Transaction>, wallet: nat)
    requires WellFormed(s) && d < |s.disputes| && |s.txns| <= |txns|
    requires forall t :: 0 <= t < |s.txns| ==>
               txns[t] == s.txns[t] || (txns[t].Funding? && s.txns[t].Funding?)
    ensures OpenOnWallet(txns, RuledAs(s.disputes, d, Resolved), wallet) <==> OtherOpenOn(s, d, wallet)
  {
    var disputes := RuledAs(s.disputes, d, Resolved);
    if OtherOpenOn(s, d, wallet) {
      var e :| 0 <= e < |s.disputes| && e != d && IsOn(s, e, wallet) && s.disputes[e].status == Open;
      assert disputes[e] == s.disputes[e];
    }
    if OpenOnWallet(txns, disputes, wallet) {
      var e :| 0 <= e < |disputes| && disputes[e].status == Open && disputes[e].chargeback < |txns|
        && txns[disputes[e].chargeback].Chargeback? && txns[disputes[e].chargeback].sender == wallet;
      assert disputes[e] == s.disputes[e] && IsOn(s, e, wallet);
    }
  }

  lemma UnknownDisputeIsRefused(s: State, reference: string, ruling: Ruling, now: int)
    requires WellFormed(s) && DisputesMatchRows(s.txns, s.disputes)
    requires forall d :: 0 <= d < |s.disputes| ==> s.disputes[d].reference != reference
    ensures ResolveDispute(s, reference, ruling, now) == (s, Refused(DisputeNotFound))
  {
  }
}
